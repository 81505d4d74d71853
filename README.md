# Blog CMS — a verified model of its query adapter, routers and authoring wizard

The CMS lets users write blog posts with AI help and manage an image gallery.
Admins review posts before publication. The backend is a FastAPI service. Its
routers speak MongoDB-style filters (`find_one`, `count_documents`,
`find().sort().skip().limit()`, `$set` with dotted paths). A document-store
adapter translates those filters into equality predicates, one `order_by` and a
`limit`. The frontend is a React application. A six-step wizard (details,
title, introduction, outline, image, review) keeps its work in a browser-local
draft. Dashboards list saved blogs, and a gallery lays images out in masonry
columns.

This project restates that core in Dafny and proves what it promises.

## Backend modules

- `Values` holds the document value type. It gives the store's order on
  values as a total preorder, and a stable insertion sort (`SortBy`) that
  specifies Python's `list.sort`.
- `FirestoreDb` is the query adapter:
  - the equality chaining;
  - skip/limit paging by over-fetching;
  - the in-memory fallback when the store reports a missing index (`IndexMissing`);
  - the `$or` emulation: one sub-query per branch and per `$in` value, merged by document id with the first occurrence kept;
  - counting;
  - update flattening;
  - timestamp defaults.

  The store is a sequence of documents in stream order plus the error its
  ordered query raises, if any. The three readings of an `$or` branch are the
  total function `Classify`, so the final `else` of the branch loop
  (`firestore_db.py:347`) has no case of its own: no input reaches it.
- `Collection` gives the MongoDB reading the routers rely on.
- `ImagesRouter`, `BlogsRouter` and `AdminRouter` cover the route handlers:
  - filter construction and paging;
  - save-once images;
  - the owner/admin guards;
  - the saved → pending → published/rejected review lifecycle.

  `ImageCollection` and `BlogCollection` are classes whose methods update a
  stored document sequence. The admin handlers are methods over a
  `BlogCollection`.
- `ImageService` holds the pure byte and name helpers:
  - magic-number sniffing;
  - base64 and data-URI normalisation;
  - extension and content-type tables;
  - object names and public URLs.
- `AiRouter` holds:
  - the AI error classifier;
  - reference parsing;
  - the blog render;
  - the gallery defaults of image generation.
- `Schemas` holds the enumerations, defaults and length checks. This includes
  the fixed number of AI options, `Schemas.AiOptionsCount = 5`.

## Frontend modules

- `DraftStorage` is the browser-local draft.
- `NextButton`, `PreviousButton` and `IncreasingDots` are the wizard navigation.
- One module per page or card:
  - `PreviewEdited`;
  - `CreateBlogOutline`, `CreateBlogIntro` and `CreateBlogImageUpload`;
  - `TemplateTable`, `CmsHome` and `SavedBlogs`;
  - `GalleryCard` and `GalleryPage`;
  - `TopicIdeaModal` and `BlogDetails`;
  - `SignUp`.
- `Common` holds the JSON value type and the JavaScript string operations the
  pages use (trim, lower-case, split, join).

A component's state variables are the fields of a class. Each of its handlers
and effects is a method whose `ensures` gives the whole new state in terms of
specification functions. Those functions carry the proved properties.

The enablement flags are predicates of their modules:
- `CreateBlogOutline.OutlinePage.CanNext`;
- `CreateBlogIntro.CanNext`;
- `CreateBlogImageUpload.ImageUploadPage.CanProceed`;
- `TopicIdeaModal.Modal.CanGenerate`;
- `SignUp.CanSubmit`;
- `TemplateTable.AllSelected`;
- `IncreasingDots.Locked` and `IncreasingDots.Done`.

The members below state what is built on them.

## Model

| member | source | states |
|---|---|---|
| FirestoreDb.EqualityPart | backend/app/models/firestore_db.py:164-171 | every filter entry except `$or` becomes an equality predicate with the same value; `$or` never does |
| FirestoreDb.ChainFilters | backend/app/models/firestore_db.py:164-171 | the filter loop, whatever order it visits the dictionary in, yields exactly the non-`$or` entries |
| FirestoreDb.Page | backend/app/models/firestore_db.py:183-187 | the page at `skip` holds min(limit, n - skip) documents (none past the end), the i-th being the (skip+i)-th of the list |
| FirestoreDb.FetchOrdered | backend/app/models/firestore_db.py:176-203 | the ordered fetch returns what the ordered-query function specifies for the store's answer (success, missing index or other error) |
| FirestoreDb.RunOrderedPages | backend/app/models/firestore_db.py:182-203 | both pagination branches return the page at `skip` of the ordered matches; a missing-index error gives the same page of the in-memory order; any other error is re-raised unchanged |
| FirestoreDb.PagesTile | backend/app/models/firestore_db.py:183-187 | consecutive pages of the ordered list follow each other with no gap and no overlap |
| FirestoreDb.FallbackSortsAllMatches | backend/app/models/firestore_db.py:193-200 | the fallback is a permutation of all matches, sorted by the top-level key (descending only for "DESCENDING"), with tied documents in stream order |
| FirestoreDb.NativeOmitsDocsWithoutField | backend/app/models/firestore_db.py:177-196 | a match lacking the order field is absent from the native ordered result but present in the fallback's |
| FirestoreDb.FallbackAgreesWithNative | backend/app/models/firestore_db.py:177-200 | ascending, for an undotted order field carried by every match, the fallback order equals the native order |
| FirestoreDb.FallbackReversesNativeDescendingTies | backend/app/models/firestore_db.py:177-200 | descending, under the same conditions, the fallback and the native query return the same documents sorted the same way, but each group with equal keys comes in stream order from the fallback and in reverse stream order from Firestore |
| FirestoreDb.DottedFallbackKeepsStreamOrder | backend/app/models/firestore_db.py:196 | when no match has a top-level field named like the (dotted) order path, the fallback leaves the matches in stream order |
| FirestoreDb.Item | backend/app/models/firestore_db.py:207-208 | an item is the document's data plus `id` set to the document id, every other field unchanged |
| FirestoreDb.Items | backend/app/models/firestore_db.py:205-209 | one item per fetched document, in order |
| FirestoreDb.ToItems | backend/app/models/firestore_db.py:205-211 | the item loop returns exactly the items of the fetched documents |
| FirestoreDb.QueryBlogs | backend/app/models/firestore_db.py:140-211 | query_blogs returns the items of the ordered, paginated fetch over the non-`$or` predicates, or the re-raised error |
| FirestoreDb.CountBlogs | backend/app/models/firestore_db.py:214-236 | count_blogs is the number of stored documents matching every non-`$or` entry |
| FirestoreDb.BlogsIgnoreOr | backend/app/models/firestore_db.py:164-169 | adding, changing or removing `$or` changes neither a blog listing nor a blog count |
| FirestoreDb.CountBlogsMatchesFallbackListing | backend/app/models/firestore_db.py:193-200 | under a missing index, a listing with skip 0 and limit equal to count_blogs returns exactly that many documents |
| FirestoreDb.DedupProps | backend/app/models/firestore_db.py:325-328 | de-duplication by id keeps every id, leaves no id twice and adds no document |
| FirestoreDb.DedupKeepsFirst | backend/app/models/firestore_db.py:326-328 | for every id, the document kept is the first one seen with that id |
| FirestoreDb.DedupPrefix | backend/app/models/firestore_db.py:315-356 | results merged from earlier branches are a prefix of the final merge |
| FirestoreDb.AppendUnseen | backend/app/models/firestore_db.py:325-328 | the inner loop appends, in order, the passing documents whose id is unseen; the seen set stays the ids of the merged list |
| FirestoreDb.MergeInValues | backend/app/models/firestore_db.py:321-328 | the `$in` loop merges one owner-and-source sub-query per value, in value order |
| FirestoreDb.MergeBranch | backend/app/models/firestore_db.py:317-346 | one `$or` branch merges what that branch fetches: `$in` values, or the owner's documents with missing or null source, or nothing |
| FirestoreDb.MergeOrBranches | backend/app/models/firestore_db.py:311-356 | the branch loop yields the de-duplicated concatenation of all branch fetches, in branch order |
| FirestoreDb.InFetchMembers | backend/app/models/firestore_db.py:321-324 | a document is fetched by the `$in` loop iff it is stored, has the owner, and its source equals one of the values |
| FirestoreDb.GatherMembers | backend/app/models/firestore_db.py:315-346 | a document is gathered iff it is stored and some branch accepts it |
| FirestoreDb.OrMembership | backend/app/models/firestore_db.py:309-356 | with distinct stored ids, a document is in the merged `$or` result iff it is stored and some branch accepts it (only `owner_id` is taken from the surrounding filter) |
| FirestoreDb.BranchQuirks | backend/app/models/firestore_db.py:317-346 | a scalar source branch such as {"source": "nano"} contributes nothing; an `$exists` branch fetches the same whatever its boolean, the same as a null-source branch |
| FirestoreDb.OrPageSortedNewestFirst | backend/app/models/firestore_db.py:358-362 | the `$or` page is sorted by created_at descending and holds at most `limit` documents |
| FirestoreDb.OrPathIgnoresOrdering | backend/app/models/firestore_db.py:308-369 | on the `$or` path the result is the same whatever order_by, order_direction or index state |
| FirestoreDb.QueryImages | backend/app/models/firestore_db.py:286-414 | query_images returns the `$or` page when there is an `$or`, otherwise the ordered, paginated fetch over every entry |
| FirestoreDb.AddIds | backend/app/models/firestore_db.py:442-458 | the counting loops add exactly the ids of the passing documents to the seen set |
| FirestoreDb.CollectInValueIds | backend/app/models/firestore_db.py:439-444 | the `$in` counting loop adds the ids of every owner-and-source match, for every value |
| FirestoreDb.CollectBranchIds | backend/app/models/firestore_db.py:436-458 | one counting branch adds the ids of what the same branch fetches in query_images |
| FirestoreDb.CollectOrIds | backend/app/models/firestore_db.py:432-459 | the counting branch loop collects the ids of everything the branches fetch |
| FirestoreDb.CountImages | backend/app/models/firestore_db.py:417-465 | count_images counts distinct gathered ids with `$or`, otherwise the documents matching every entry |
| FirestoreDb.CountImagesIsMergedSize | backend/app/models/firestore_db.py:430-459 | with `$or`, count_images equals the number of documents query_images merges before paginating |
| FirestoreDb.Stamp | backend/app/models/firestore_db.py:96 | stamping updated_at adds at most one entry to the update list |
| FirestoreDb.Nested | backend/app/models/firestore_db.py:104-107 | a nested dictionary becomes exactly one "key.sub" entry per sub-key, carrying the nested value |
| FirestoreDb.AddNested | backend/app/models/firestore_db.py:106-107 | the inner loop adds exactly the "key.sub" entries to the update map |
| FirestoreDb.UpdateBlogFields | backend/app/models/firestore_db.py:93-111 | the update map sent is the flattening of the entries after stamping updated_at |
| FirestoreDb.FlattenKeys | backend/app/models/firestore_db.py:99-109 | every key written is an entry's own key, or "key.sub" for an undotted entry holding a dictionary |
| FirestoreDb.FlattenKeepsPlainKey | backend/app/models/firestore_db.py:108-109 | an undotted entry whose value is not a dictionary is passed through unchanged |
| FirestoreDb.FlattenExpandsNested | backend/app/models/firestore_db.py:104-107 | a dictionary under an undotted key is flattened exactly one level, unless another entry spells that dotted key out |
| FirestoreDb.UpdateStampsUpdatedAt | backend/app/models/firestore_db.py:96-111 | the update always sets updated_at to the call's time |
| FirestoreDb.WithBlogTimestamps | backend/app/models/firestore_db.py:48-49 | create_blog keeps supplied created_at and updated_at, sets missing ones to the clock readings, and leaves other fields alone |
| FirestoreDb.WithImageTimestamp | backend/app/models/firestore_db.py:252 | create_image keeps a supplied created_at, sets a missing one to the clock reading, and leaves other fields alone |
| FirestoreDb.BlogTimestampsIdempotent | backend/app/models/firestore_db.py:48-49 | applying the timestamp defaults a second time changes nothing |
| Values.KeyLeTotal | backend/app/models/firestore_db.py:196 | any two sort keys are comparable |
| Values.KeyLeTrans | backend/app/models/firestore_db.py:196 | the sort-key order is transitive |
| Values.SortByCorrect | backend/app/models/firestore_db.py:196 | the stable sort yields a sorted permutation of its input, in either direction |
| Values.SortByStable | backend/app/models/firestore_db.py:196 | the sort keeps elements with tied keys in their input order, also for `reverse=True` |
| Values.SortBySameKeys | backend/app/models/firestore_db.py:196 | two sort keys that agree on every element give the same sorted list |
| Collection.FindOne | backend/app/routers/images.py:21-23 | `find_one` returns a stored document matching the filter, and None only when no stored document matches |
| Collection.FindNewestFirstProps | backend/app/routers/images.py:55 | a page of `find(q).sort("created_at", -1).skip(s).limit(l)` holds at most `l` stored matching documents, newest first |
| Collection.PageSkip | backend/app/routers/images.py:36 | skip = (page - 1) * limit: page 1 skips nothing and page p ends at p * limit |
| Collection.ConsecutivePages | backend/app/routers/blogs.py:48-52 | under the model's fixed order among equal `created_at` values, page p followed by page p+1 is the 2·limit documents of the sorted matches starting at page p, with no gap or overlap |
| Collection.SetPathGet | backend/app/routers/admin.py:37-47 | after `$set` of a (dotted) path, reading that path gives the value set; a non-document field on the way is replaced by a document |
| Collection.SetPathFrame | backend/app/routers/admin.py:37-47 | a `$set` of one path leaves every independent path unchanged |
| Collection.SetPathOtherFields | backend/app/routers/admin.py:37-47 | a `$set` changes no top-level field but the head of its path |
| Collection.ApplySetGet | backend/app/routers/admin.py:37-47 | after a `$set` of independent paths, each path holds its entry's value; non-document fields on the way are replaced as in SetPathGet |
| Collection.ApplySetFrame | backend/app/routers/admin.py:37-47 | a path independent of every `$set` entry keeps its value |
| Collection.ApplySetOtherFields | backend/app/routers/admin.py:37-47 | top-level fields no `$set` entry starts with are left as they were |
| Collection.FindById | backend/app/routers/blogs.py:119 | `find_one({"_id": id})` returns a stored document whose id equals the given one exactly, None only when there is none; the routes pass the lower-case spelling that stored ids use |
| Collection.UpdateById | backend/app/routers/blogs.py:152-161 | `update_one` by id applies the `$set` to the documents with that id and leaves every other document as it was |
| Collection.FindByIdAfterUpdate | backend/app/routers/blogs.py:152-161 | after `update_one` by id, the looked-up blog is the updated one for that id and unchanged for every other id |
| Collection.UpdateByIdIds | backend/app/routers/blogs.py:152-161 | an update by id keeps the stored ids distinct exactly when they were |
| ImagesRouter.ListFilter | backend/app/routers/images.py:37-52 | the list filter always holds owner_id = the caller, and only owner_id, `$or` or source |
| ImagesRouter.ListFilterMeaning | backend/app/routers/images.py:37-52 | under MongoDB semantics the filter selects exactly the caller's images: "ai" nano, blog, missing or null source; "nano" nano, missing or null; another non-empty source that source; none or "" every source |
| ImagesRouter.OrBranchesMeaning | backend/app/routers/images.py:39-50 | the three-branch `$or` lists of "ai" and "nano", branch by branch |
| ImagesRouter.ListFilterWellShaped | backend/app/routers/images.py:37-52 | every list filter has the `$or` shape the adapter accepts |
| ImagesRouter.AdapterAgreesForAi | backend/app/routers/images.py:39-44 | handed to the adapter's `$or` emulation, the "ai" filter selects the same documents as under MongoDB semantics |
| ImagesRouter.AdapterDropsNanoImages | backend/app/routers/images.py:45-50 | handed to the adapter, the "nano" filter never returns an image whose source is "nano", though MongoDB semantics would |
| ImagesRouter.NewImageRecord | backend/app/routers/images.py:12-19 | the record to insert belongs to the caller and carries the saved URL |
| ImagesRouter.SameImageMeaning | backend/app/routers/images.py:21-23 | the duplicate check matches exactly the caller's records with that URL |
| ImagesRouter.SaveResponse | backend/app/routers/images.py:27 | the answer holds exactly image_url and meta |
| ImagesRouter.SaveTwiceStoresOnce | backend/app/routers/images.py:21-25 | saving the same URL a second time leaves the collection as the first save left it |
| ImagesRouter.SaveCount | backend/app/routers/images.py:21-25 | after a save the caller has one record for the URL if there was none, and as many as before otherwise |
| ImagesRouter.ImageItem | backend/app/routers/images.py:58-66 | a listed item carries the id and defaults image_url to "", meta to {} and source to None |
| ImagesRouter.ToImageItems | backend/app/routers/images.py:56-66 | the cursor loop returns one item per fetched record, in order |
| ImagesRouter.ImageCollection.SaveImage | backend/app/routers/images.py:10-27 | the collection after save_image is the old one with the record appended unless the caller already saved the URL; the answer echoes URL and meta |
| ImagesRouter.ImageCollection.ListImages | backend/app/routers/images.py:29-68 | total counts the filter's matches; items are the page at (page-1)·limit of the matches, newest first, at most limit |
| ImagesRouter.ListedImagesMatch | backend/app/routers/images.py:37-55 | every listed image is stored, belongs to the caller and has a requested source |
| BlogsRouter.ReviewRoundTrip | backend/app/models/schemas.py:110-117 | the stored admin-review record reads back as the record written |
| BlogsRouter.NewBlogInitialState | backend/app/routers/blogs.py:18-36 | a new blog is owned by the caller, "saved", with an empty review record and feedback "", unpublished, and created_at = updated_at = now |
| BlogsRouter.Oid | backend/core/deps.py:8-12 | the id as the store spells it: the same length, every letter in lower case, as `str(ObjectId(s))` writes hex digits |
| BlogsRouter.Lookup | backend/core/deps.py:8-12 | a lookup returns the stored blog whose id is the lower-case spelling of the given id, or fails with 400 (malformed id) or 404 |
| BlogsRouter.LookupIgnoresCase | backend/core/deps.py:8-12 | two ids that differ only in letter case get the same lookup, the same owner-or-admin guard and the same owner-only guard |
| BlogsRouter.UpperCaseIdFindsBlog | backend/app/routers/blogs.py:119 | a well-formed id in any letter case finds the stored blog spelled in lower case |
| BlogsRouter.AuthorizeOutcomes | backend/app/routers/blogs.py:119-123 | with a well-formed id: 404 iff no stored id equals its lower-case spelling, 403 iff that blog exists and the caller is neither owner nor admin, success otherwise |
| BlogsRouter.PublishRequestEffect | backend/app/routers/blogs.py:177-186 | the publish request makes the blog "pending" with requested_at set and feedback "", keeping the rest of the review and every field but status and updated_at |
| BlogsRouter.UpdateKeepsStatus | backend/app/routers/blogs.py:152-161 | an edit replaces meta and final_blog and bumps updated_at; status, review record and every other field stay |
| BlogsRouter.RequestPublishOutcome | backend/app/routers/blogs.py:167-188 | a publish request succeeds iff the id is well formed, the blog exists, the caller owns it (no admin exemption) and it is not published; failures change nothing; success leaves it pending |
| BlogsRouter.ListedNewBlog | backend/app/routers/blogs.py:55-66 | a saved blog lists under its meta title, else its rendered title, in English, with its author's name and status "saved" |
| BlogsRouter.ListedBareBlog | backend/app/routers/blogs.py:58-65 | a stored blog without meta, final_blog, status or owner name lists under "", in English, "saved" |
| BlogsRouter.BlogItem | backend/app/routers/blogs.py:55-66 | a listed blog item has exactly the id, title, language, tone, creativity, created_by, created_at and status keys |
| BlogsRouter.ToBlogItems | backend/app/routers/blogs.py:53-67 | the cursor loop returns one item per fetched blog, in order |
| BlogsRouter.OwnerStatusFilterMeaning | backend/app/routers/blogs.py:78-80 | the stats filter selects exactly the caller's blogs with that status |
| BlogsRouter.StatsBounded | backend/app/routers/blogs.py:77-80 | saved + pending + published never exceeds the caller's total |
| BlogsRouter.GeneratedImagesAreNanoListing | backend/app/routers/blogs.py:81-90 | the generated-images filter is the images listing's "nano" filter and selects the caller's images whose source is "nano", missing or null |
| BlogsRouter.BlogCollection.SaveBlog | backend/app/routers/blogs.py:16-39 | save_blog appends the new record and answers its id with status "saved" |
| BlogsRouter.BlogCollection.ListMyBlogs | backend/app/routers/blogs.py:42-69 | total counts the caller's blogs; items are the page at (page-1)·limit of them, newest first, at most limit |
| BlogsRouter.BlogCollection.BlogStats | backend/app/routers/blogs.py:73-98 | each count is the caller's matching documents, the status counts sum to at most the total, and generated images use the nano/missing/null `$or` |
| BlogsRouter.BlogCollection.GetBlog | backend/app/routers/blogs.py:117-127 | get_blog answers the guarded blog with its id, or the guard's error |
| BlogsRouter.BlogCollection.DeleteBlog | backend/app/routers/blogs.py:131-140 | delete_blog removes the blog when the guard passes and changes nothing otherwise |
| BlogsRouter.BlogCollection.UpdateBlog | backend/app/routers/blogs.py:144-162 | update_blog applies the content `$set` when the guard passes and changes nothing otherwise |
| BlogsRouter.BlogCollection.RequestPublish | backend/app/routers/blogs.py:166-188 | request_publish's answer and new collection are those of the publish-request outcome |
| BlogsRouter.DeleteRemovesOnlyThatBlog | backend/app/routers/blogs.py:139 | deleting keeps exactly the documents with another id |
| BlogsRouter.UpdateBlogKeepsStatus | backend/app/routers/blogs.py:152-161 | after an edit the blog keeps its status and carries the new final_blog; every other blog is unchanged |
| AdminRouter.RequireAdmin | backend/core/deps.py:34-37 | the admin dependency lets through exactly users whose role is "admin", and answers 403 "Admin only" otherwise |
| AdminRouter.StatusFilterMeaning | backend/app/routers/admin.py:16 | the listing filter selects exactly the blogs with that status |
| AdminRouter.AdminItem | backend/app/routers/admin.py:22-28 | an admin item has exactly the id, title, created_by, created_at and status keys |
| AdminRouter.ToAdminItems | backend/app/routers/admin.py:20-28 | the cursor loop returns one item per fetched blog, in order |
| AdminRouter.ListBlogsForAdmin | backend/app/routers/admin.py:8-29 | non-admins get 403; admins get the count and the newest-first page of blogs with the requested status |
| AdminRouter.AdminListingHasStatus | backend/app/routers/admin.py:11-19 | every listed blog has the requested status ("pending" when none is given), and its item says so |
| AdminRouter.ApproveEffect | backend/app/routers/admin.py:37-47 | approval makes any blog "published" with published_at and the reviewing admin recorded; feedback, request time, content and owner stay |
| AdminRouter.RejectEffect | backend/app/routers/admin.py:56-66 | rejection makes the blog "rejected" with the reviewing admin and feedback recorded; published_at, request time, content and owner stay |
| AdminRouter.ApproveBlog | backend/app/routers/admin.py:31-48 | approve_blog's answer and new collection are those of the decision outcome with the approval `$set` |
| AdminRouter.RejectBlog | backend/app/routers/admin.py:50-67 | reject_blog's answer and new collection are those of the decision outcome with the rejection `$set` |
| AdminRouter.DecideOutcome | backend/app/routers/admin.py:32-35 | a decision succeeds iff the caller is an admin and the blog exists (whatever its status); failures (400, 403, 404) change nothing; success gives the decided status |
| Schemas.ParseRole | backend/app/models/schemas.py:10 | a role validates iff it is "user" or "admin", and names the role given |
| Schemas.SignupRole | backend/app/models/schemas.py:10 | a sign-up without a role gets "user"; a given role must be "user" or "admin" |
| Schemas.RoleRoundTrip | backend/app/models/schemas.py:10 | every role's name validates back to it |
| Schemas.ParseStatus | backend/app/models/schemas.py:131 | a blog status validates iff it is saved, pending, published or rejected |
| Schemas.StatusRoundTrip | backend/app/models/schemas.py:131 | the four statuses have distinct names, each validating back to it |
| Schemas.ParseAspect | backend/app/models/schemas.py:217 | an aspect ratio validates iff it is 1:1, 4:3, 3:4, 16:9 or 9:16 |
| Schemas.AspectRoundTrip | backend/app/models/schemas.py:217 | every aspect ratio's name validates back to it |
| Schemas.ParseQuality | backend/app/models/schemas.py:218 | a quality validates iff it is low, medium or high |
| Schemas.QualityRoundTrip | backend/app/models/schemas.py:218 | every quality's name validates back to it |
| Schemas.NewImageGenerateIn | backend/app/models/schemas.py:207-219 | an image request validates iff its ratio and quality are known or omitted; omitted ones default to 4:3 and high, the colour to "#4443E4" and the keyword to "" |
| Schemas.NewTopicIdeasIn | backend/app/models/schemas.py:152-160 | a topic-ideas request validates iff the focus has at least 3 characters; omitted optional strings default to "" |
| Schemas.DefaultBlogMeta | backend/app/models/schemas.py:91-107 | BlogMeta built from the required fields is in English with every optional string "" and an empty outline |
| ImageService.NormalizeModel | backend/app/services/image_service.py:27-30 | "" stays ""; any other name ends up starting with "models/", either unchanged or with the prefix added once |
| ImageService.NormalizeModelIdempotent | backend/app/services/image_service.py:27-30 | normalising twice is normalising once; a name already prefixed is unchanged |
| ImageService.StripSlashes | backend/app/services/image_service.py:84 | the stripped folder neither starts nor ends with "/" |
| ImageService.StripSlashesIdempotent | backend/app/services/image_service.py:84 | stripping twice is stripping once, and a leading "/" makes no difference |
| ImageService.ObjectName | backend/app/services/image_service.py:83-85 | the object name always ends with the file name |
| ImageService.ObjectNameShape | backend/app/services/image_service.py:83-85 | the object name is "prefix/filename" with the slash-trimmed folder, or just the file name when the folder is empty or unset |
| ImageService.ObjectNameIgnoresSlashes | backend/app/services/image_service.py:84 | surrounding slashes in the configured folder do not change the object name |
| ImageService.StripTrailingSlashes | backend/app/services/image_service.py:88 | the base URL no longer ends with "/" |
| ImageService.PublicUrl | backend/app/services/image_service.py:77-89 | the public URL fails with "GCS_BUCKET is not set." iff the bucket is unset or empty |
| ImageService.PublicUrlShape | backend/app/services/image_service.py:87-89 | the public URL is base + "/" + bucket + "/" + name, the base defaulting to https://storage.googleapis.com and losing trailing slashes |
| ImageService.ContentTypeOf | backend/app/services/image_service.py:93-103 | the content type is one of the five image types or application/octet-stream |
| ImageService.ContentTypeCaseAndDots | backend/app/services/image_service.py:92 | the content type ignores letter case and leading dots of the extension |
| ImageService.CleanExtension | backend/app/services/image_service.py:91-103 | a cleaned extension maps jpg/jpeg, png, webp, gif, bmp to their types and anything else to application/octet-stream |
| ImageService.DetectImageKind | backend/app/services/image_service.py:115-117 | empty data has no image kind |
| ImageService.DetectIffSigned | backend/app/services/image_service.py:115-128 | the detected kind is k iff the data carries k's signature (PNG, FF D8 FF, GIF87a/GIF89a, RIFF…WEBP, BM) |
| ImageService.ImagesAreNotDataUris | backend/app/services/image_service.py:115-128 | data with a recognised signature never starts with "data:" |
| ImageService.LooksLikeBase64 | backend/app/services/image_service.py:130-134 | holds iff the data is non-empty and each of its first 256 bytes is in the base64 alphabet, "=", "\n" or "\r" |
| ImageService.Base64LooksAtPrefix | backend/app/services/image_service.py:133 | bytes after the first 256 do not affect the base64 test |
| ImageService.AfterComma | backend/app/services/image_service.py:140 | the part after the first comma is shorter than the data, or empty |
| ImageService.NormalizeKeepsImages | backend/app/services/image_service.py:136-155 | recognised images pass through untouched; the bytes change only for a data: URI or to a decoding that is a recognised image |
| ImageService.NormalizeIdempotentOffDataUris | backend/app/services/image_service.py:136-155 | for data that is not a data: URI, normalising the result again changes nothing |
| ImageService.ExtensionFromBytes | backend/app/services/image_service.py:157-175 | the extension is always png, jpg, webp, gif or bmp |
| ImageService.ExtensionMatchesKind | backend/app/services/image_service.py:170-175 | without a MIME type the extension is the sniffed kind's (jpeg gives jpg), served with that kind's content type |
| ImageService.KindExtensionType | backend/app/services/image_service.py:91-103 | each kind's extension maps back to that kind's image type |
| ImageService.ExtensionHasImageType | backend/app/services/image_service.py:157-175 | the chosen extension never maps to application/octet-stream |
| ImageService.PrepareImage | backend/app/services/image_service.py:177-180 | preparing normalises the bytes and takes the extension of the normalised bytes |
| ImageService.FallbackSizeTable | backend/app/services/image_service.py:253-260 | distinct ratios get distinct sizes, only 1:1 and unknown ratios get 1024x1024 |
| ImageService.FallbackQualityTable | backend/app/services/image_service.py:263-268 | low and medium map to standard; high and anything unknown map to hd |
| AiRouter.RaiseAiError | backend/app/routers/ai.py:19-49 | the classified error always has status 400, 429 or 503 |
| AiRouter.FirstFiring | backend/app/routers/ai.py:23-47 | the chosen rule is a listed rule that fires; none is chosen iff no rule fires |
| AiRouter.FirstFiringCons | backend/app/routers/ai.py:23-47 | the rules are tried in order and the first that fires decides |
| AiRouter.RaiseAiErrorFollowsRules | backend/app/routers/ai.py:19-49 | the error is the first firing rule's, or 400 with the original message when none fires |
| AiRouter.RaiseAiErrorStatus | backend/app/routers/ai.py:23-49 | 429 iff "resource_exhausted" (case-sensitive) or "quota" (any case); 503 exactly for network or, after the modality and model rules, key failures; otherwise 400 with the message |
| AiRouter.Generated | backend/app/routers/ai.py:51-91 | a generation endpoint answers the options, or the classified error of the failure |
| AiRouter.Cleaned | backend/app/routers/ai.py:130 | the cleaned references are no more than the pieces and none is empty |
| AiRouter.References | backend/app/routers/ai.py:130 | every reference is non-empty and contains no comma |
| AiRouter.CleanedNoComma | backend/app/routers/ai.py:130 | cleaned comma-split pieces contain no comma |
| AiRouter.ReferencesRoundTrip | backend/app/routers/ai.py:130 | links written as a comma-joined list of stripped, comma-free items come back as that list |
| AiRouter.NoLinksNoReferences | backend/app/routers/ai.py:130 | empty reference links give no references |
| AiRouter.RenderOf | backend/app/routers/ai.py:131-138 | the render copies title, cover and intro, has an empty conclusion and the parsed references |
| AiRouter.Headings | backend/app/routers/ai.py:135 | one heading per section, in order |
| AiRouter.RenderSections | backend/app/routers/ai.py:135 | the render has one section per outline heading in order, each with an empty body and no bullets |
| AiRouter.BlogGenerate | backend/app/routers/ai.py:115-142 | blog_generate answers the render with the generated markdown, or the classified error |
| AiRouter.GalleryDefaults | backend/app/routers/ai.py:97-108 | a generated image is always saved, with source "nano", owned by the caller, and appears in the "ai" and "nano" listings and the generated-images count |
| AiRouter.ImageGenerate | backend/app/routers/ai.py:94-113 | on success the gallery gains the generated record and the result is answered; on failure the classified error is raised and the gallery is unchanged |
| DraftStorage.LoadOf | frontend/src/lib/storage.js:3-9 | loading yields the stored value only when it parsed and is truthy, and the empty object `{}` otherwise |
| DraftStorage.LoadFallbacks | frontend/src/lib/storage.js:3-9 | a missing entry, a stored `null` and unparsable text all load as `{}`; a stored object loads unchanged |
| DraftStorage.Merge | frontend/src/lib/storage.js:12 | the spread `{...draft, ...patch}`: keys are the union, patch values win, other draft values stay, an absent patch changes nothing |
| DraftStorage.MergeIdempotent | frontend/src/lib/storage.js:12 | saving the same patch twice leaves the same draft as saving it once |
| DraftStorage.Store.SaveDraft | frontend/src/lib/storage.js:11-15 | stores and returns the merge of the loaded draft with the patch; loading afterwards yields exactly that object |
| DraftStorage.Store.ClearDraft | frontend/src/lib/storage.js:17-19 | removes the entry, so loading afterwards yields `{}` |
| DraftStorage.Store.RequireDraft | frontend/src/lib/storage.js:21-29 | succeeds with the loaded draft iff no required key is absent, `null` or the empty string; otherwise fails naming the first missing key in the order given |
| DraftStorage.SaveThenLoad | frontend/src/lib/storage.js:3-15 | after a save, a patched key reads back the patch's value, every other key reads back what it read before, and an absent patch leaves an object draft as it was |
| DraftStorage.ClearThenLoad | frontend/src/lib/storage.js:17-19 | after clearing, every key counts as missing |
| DraftStorage.Store.constructor | frontend/src/lib/storage.js:1 | the store starts from whatever entry the browser holds under the draft key |
| NextButton.CleanPath | frontend/src/buttons/NextButton.jsx:18 | the cleaned path is non-empty, is `/` or a prefix of the path, and never ends in `/` unless it is `/` |
| NextButton.CleanPathIgnoresTrailingSlash | frontend/src/buttons/NextButton.jsx:18 | a trailing slash does not change which step the path names |
| NextButton.StepIndex | frontend/src/buttons/NextButton.jsx:5-19 | every step path is already clean and is found at its own position in the step table |
| NextButton.HandleNext | frontend/src/buttons/NextButton.jsx:21-27 | navigates iff the button is enabled and the page is a step other than the last, and then to the following step |
| NextButton.NextNeverLeavesTheWizard | frontend/src/buttons/NextButton.jsx:19-27 | off-table pages, the last step and a disabled button go nowhere; step i goes to step i+1 |
| PreviousButton.SameStepTable | frontend/src/buttons/PreviousButton.jsx:5-12 | the previous button uses the same six-step table as the next button |
| PreviousButton.HandlePrev | frontend/src/buttons/PreviousButton.jsx:21-27 | navigates iff the button is enabled and the page is a step after the first, and then to the preceding step |
| PreviousButton.PrevNeverLeavesTheWizard | frontend/src/buttons/PreviousButton.jsx:18-27 | off-table pages and the first step go nowhere |
| PreviousButton.PrevAfterNext | frontend/src/buttons/PreviousButton.jsx:24-27 | going back after going forward from step i returns to step i |
| PreviousButton.NextAfterPrev | frontend/src/buttons/PreviousButton.jsx:24-27 | going forward after going back from step i returns to step i |
| IncreasingDots.SameStepsAsButtons | frontend/src/interface/IncreasingDotsInterface.jsx:10-20 | the progress dots list the same paths, in the same order, as the navigation buttons |
| IncreasingDots.SelectedIndex | frontend/src/interface/IncreasingDotsInterface.jsx:22-29 | a `generated` page selects the last dot; a step path selects its own dot; any other path selects the first |
| IncreasingDots.StepSelected | frontend/src/interface/IncreasingDotsInterface.jsx:22-29 | each step's own path selects that step's dot |
| IncreasingDots.MaxIndex | frontend/src/interface/IncreasingDotsInterface.jsx:31-46 | the furthest reachable step is at most 5 |
| IncreasingDots.MaxIndexIsFirstUnfinished | frontend/src/interface/IncreasingDotsInterface.jsx:32-45 | every step before the furthest reachable one is complete, the furthest one (if below 5) is not, and an incomplete step bounds it |
| IncreasingDots.Redirect | frontend/src/interface/IncreasingDotsInterface.jsx:56-61 | redirects iff the page is not a `generated` page and its step lies beyond the furthest reachable one |
| IncreasingDots.RedirectSettles | frontend/src/interface/IncreasingDotsInterface.jsx:56-61 | a redirect lands on the furthest reachable step, where no further redirect happens |
| IncreasingDots.ClickDot | frontend/src/interface/IncreasingDotsInterface.jsx:121-133 | a dot navigates iff it is not locked, and then to its own step |
| IncreasingDots.ClickNeverRedirects | frontend/src/interface/IncreasingDotsInterface.jsx:124-133 | a page reached by clicking an unlocked dot is never redirected away |
| PreviewEdited.EnsureWidthAttrCases | frontend/src/Pages/PreviewEditedPage.jsx:66-76 | non-img tags and tags that already have a width are unchanged; any other img tag gains `width="100%"`, placed before ` />`, before `>`, or at the end |
| PreviewEdited.EnsureWidthAttrIdempotent | frontend/src/Pages/PreviewEditedPage.jsx:66-76 | adding the width attribute twice gives the same tag as adding it once |
| PreviewEdited.CoverTagKeepsWidth | frontend/src/Pages/PreviewEditedPage.jsx:151-153 | the cover tag the page builds already carries a width, so the width fix leaves it unchanged |
| PreviewEdited.BlankAll | frontend/src/Pages/PreviewEditedPage.jsx:82 | a line counts as blank iff every character in it is JavaScript whitespace |
| PreviewEdited.BlankIsTrimEmpty | frontend/src/Pages/PreviewEditedPage.jsx:82 | a line counts as blank iff it trims to the empty string |
| PreviewEdited.HeadingIsTrimHash | frontend/src/Pages/PreviewEditedPage.jsx:85 | a line counts as a heading iff its trimmed form starts with `#` |
| PreviewEdited.SkipBlank | frontend/src/Pages/PreviewEditedPage.jsx:82-84 | skips exactly the run of blank lines: everything skipped is blank and the line it stops at is not |
| PreviewEdited.Candidate | frontend/src/Pages/PreviewEditedPage.jsx:81-90 | the cover candidate is the first non-blank line, or the first non-blank line after a leading heading; every non-blank line before it is a heading, and at most one |
| PreviewEdited.RemoveCover | frontend/src/Pages/PreviewEditedPage.jsx:104-118 | removing the cover drops its line and, when the next line is empty, that line too |
| PreviewEdited.Splice | frontend/src/Pages/PreviewEditedPage.jsx:104-115 | `splice(i, 1)` drops element i and shifts every later element down by one |
| PreviewEdited.ExtractCases | frontend/src/Pages/PreviewEditedPage.jsx:93-121 | a cover is found iff the candidate line is an img line (bare or in `<p>`) or a lone markdown image; without one the body is the lines unchanged and the URL empty; with one the body is the lines less the cover and the cover line carries a width |
| PreviewEdited.ExtractCoverLine | frontend/src/Pages/PreviewEditedPage.jsx:78-122 | the imperative splice-and-join computes the cover line, cover URL and body the specification function gives |
| PreviewEdited.InsertCoverLine | frontend/src/Pages/PreviewEditedPage.jsx:124-143 | the imperative scan computes the body with the cover line placed the specification function gives |
| PreviewEdited.CoverLineRecognised | frontend/src/Pages/PreviewEditedPage.jsx:94-103 | a trimmed img line with a width is neither blank nor a heading, and extraction returns it unchanged |
| PreviewEdited.InsertedAfterHeading | frontend/src/Pages/PreviewEditedPage.jsx:131-137 | when the body opens with a heading, the cover goes right after it and removing it gives back the body with the blank lines after the heading dropped |
| PreviewEdited.InsertedFirst | frontend/src/Pages/PreviewEditedPage.jsx:139-142 | otherwise the cover goes first and removing it gives back the body with its leading blank lines dropped |
| PreviewEdited.ExtractAfterInsert | frontend/src/Pages/PreviewEditedPage.jsx:78-143 | extracting after inserting an img cover line returns that cover line, its URL, and the body as insertion left it (blank lines after a leading heading, or else the leading blank lines, dropped) |
| PreviewEdited.HeroFallback | frontend/src/Pages/PreviewEditedPage.jsx:145-158 | the cover URL is the one found in the content, else the hero URL unless it is the default hero; a hero-only cover is inserted as an img tag |
| PreviewEdited.CoverUrlLooksAtHead | frontend/src/Pages/PreviewEditedPage.jsx:160-167 | only the first 1200 characters decide the cover URL |
| PreviewEdited.InitialSplit | frontend/src/Pages/PreviewEditedPage.jsx:194-198 | the starting split is the stored value when it lies in [25, 75] and 50 otherwise |
| PreviewEdited.ClampSplit | frontend/src/Pages/PreviewEditedPage.jsx:330-336 | a dragged split is clamped into [25, 75] and left alone inside it |
| PreviewEdited.ClampSplitMonotone | frontend/src/Pages/PreviewEditedPage.jsx:330-336 | dragging further right never gives a smaller split |
| PreviewEdited.Editor.constructor | frontend/src/Pages/PreviewEditedPage.jsx:181-198 | the editor opens on the editable markdown of the saved content, with the starting split |
| PreviewEdited.Editor.Drag | frontend/src/Pages/PreviewEditedPage.jsx:332-337 | a mouse move sets the split to the clamped value and leaves the text alone; the split stays in [25, 75] |
| PreviewEdited.Editor.Edit | frontend/src/Pages/PreviewEditedPage.jsx:407-409 | typing replaces the markdown and leaves the split alone |
| CreateBlogOutline.CleanItem | frontend/src/Pages/CreateBlogOutlinepage.jsx:20 | a cleaned line is empty or starts after the list markers and ends on a non-space, and gains no line breaks |
| CreateBlogOutline.CleanItemIdempotent | frontend/src/Pages/CreateBlogOutlinepage.jsx:20 | cleaning a cleaned line changes nothing |
| CreateBlogOutline.CleanAll | frontend/src/Pages/CreateBlogOutlinepage.jsx:20-21 | cleaning then dropping empty lines keeps at most as many items, each non-empty and already clean |
| CreateBlogOutline.CleanAllNoBreaks | frontend/src/Pages/CreateBlogOutlinepage.jsx:19-21 | items cleaned from break-free lines are break-free |
| CreateBlogOutline.ParseOutline | frontend/src/Pages/CreateBlogOutlinepage.jsx:17-22 | the outline has at most one item per input line, each non-empty, without leading markers, trailing space or line breaks |
| CreateBlogOutline.CleanAllKeeps | frontend/src/Pages/CreateBlogOutlinepage.jsx:20-21 | cleaning a list of already clean items gives it back |
| CreateBlogOutline.SplitLinesJoin | frontend/src/Pages/CreateBlogOutlinepage.jsx:53-55 | splitting the line-break join of break-free items gives the items back |
| CreateBlogOutline.ParseJoinParse | frontend/src/Pages/CreateBlogOutlinepage.jsx:17-22 | parsing the joined parse of a text gives the same outline: the manual text round-trips |
| CreateBlogOutline.CleanIsFixed | frontend/src/Pages/CreateBlogOutlinepage.jsx:20 | a line that starts on a non-marker and ends on a non-space is already clean |
| CreateBlogOutline.Headings | frontend/src/Pages/CreateBlogOutlinepage.jsx:60 | the parsed outline is stored as an array of exactly those strings, in order |
| CreateBlogOutline.ItemTextsOfHeadings | frontend/src/Pages/CreateBlogOutlinepage.jsx:54-60 | reading the strings back from a stored outline gives the items |
| CreateBlogOutline.InitialMode | frontend/src/Pages/CreateBlogOutlinepage.jsx:26 | the starting mode is never empty (it defaults to `ai`) |
| CreateBlogOutline.InitialIndex | frontend/src/Pages/CreateBlogOutlinepage.jsx:34-48 | the starting index is 0 or names a truthy option, and is the stored index whenever that is a number naming a truthy option |
| CreateBlogOutline.SelectedOutline | frontend/src/Pages/CreateBlogOutlinepage.jsx:59-62 | manual mode selects the parsed manual text; AI mode selects the chosen option when it exists and is truthy, else the empty outline |
| CreateBlogOutline.ReloadRestoresOptions | frontend/src/Pages/CreateBlogOutlinepage.jsx:26-71 | reopening the page after its saves restores the mode, the options and the chosen index |
| CreateBlogOutline.ReloadRestoresSelection | frontend/src/Pages/CreateBlogOutlinepage.jsx:26-71 | reopening the page after its saves selects the same outline |
| CreateBlogOutline.ManualReload | frontend/src/Pages/CreateBlogOutlinepage.jsx:26-62 | with a saved manual outline, reopening selects that same parsed outline whatever the options |
| CreateBlogOutline.OptionsOf | frontend/src/Pages/CreateBlogOutlinepage.jsx:95 | one option per element of the response's `options` array, each truthy |
| CreateBlogOutline.EditOptions | frontend/src/Pages/CreateBlogOutlinepage.jsx:105-113 | editing replaces only the chosen option, by the parsed text, and does nothing while there are no options |
| CreateBlogOutline.EditShowsParsed | frontend/src/Pages/CreateBlogOutlinepage.jsx:105-113 | after an edit the chosen option and the selected outline are the parsed edit |
| CreateBlogOutline.OutlineRequest | frontend/src/Pages/CreateBlogOutlinepage.jsx:74-84 | the outline request carries every field of the intro request plus `intro_md`, with the same values |
| CreateBlogOutline.OutlineGuardStricter | frontend/src/Pages/CreateBlogOutlinepage.jsx:86-89 | outlines can be generated iff intros could be and the intro is non-empty |
| CreateBlogOutline.OutlinePage.constructor | frontend/src/Pages/CreateBlogOutlinepage.jsx:25-57 | the page opens on the draft's mode, options, index and manual text, idle and without an error |
| CreateBlogOutline.OutlinePage.SelectOption | frontend/src/Pages/CreateBlogOutlinepage.jsx:124 | choosing an option changes only the chosen index |
| CreateBlogOutline.OutlinePage.SetManual | frontend/src/Pages/CreateBlogOutlinepage.jsx:204-206 | typing changes only the manual text |
| CreateBlogOutline.OutlinePage.EditAiOutline | frontend/src/Pages/CreateBlogOutlinepage.jsx:105-113 | editing changes only the options, as the edit function says |
| CreateBlogOutline.OutlinePage.SelectMode | frontend/src/Pages/CreateBlogOutlinepage.jsx:254-259 | switching mode sets it; switching to manual with a blank manual text and a non-empty selection copies the selection in as lines |
| CreateBlogOutline.OutlinePage.Generate | frontend/src/Pages/CreateBlogOutlinepage.jsx:73-103 | an incomplete draft sets the fixed message and nothing else; a reply replaces the options and selects the first; a failure keeps them and shows the reply's message or the fallback; the page ends idle |
| CreateBlogIntro.IntroRequest | frontend/src/Pages/CreateBlogIntroParagraphPage.jsx:36-45 | the intro request carries exactly the eight draft fields the endpoint takes |
| CreateBlogIntro.RequestDefaults | frontend/src/Pages/CreateBlogIntroParagraphPage.jsx:36-45 | tone and creativity default to `Formal` and `Regular`; an empty idea or an empty focus makes the two fields fall back to each other |
| CreateBlogIntro.IntroOptions | frontend/src/Pages/CreateBlogIntroParagraphPage.jsx:56 | one introduction per element of the response's `options` array |
| CreateBlogIntro.InitialMode | frontend/src/Pages/CreateBlogIntroParagraphPage.jsx:19 | the starting mode is never empty (it defaults to `ai`) |
| CreateBlogIntro.SelectedIntro | frontend/src/Pages/CreateBlogIntroParagraphPage.jsx:26-29 | manual mode selects the manual text; AI mode selects the chosen introduction when it exists and the empty string otherwise |
| CreateBlogIntro.InitialIntrosAsWritten | frontend/src/Pages/CreateBlogIntroParagraphPage.jsx:20 | as written, the page always opens with no AI introductions |
| CreateBlogIntro.ReopenErasesIntro | frontend/src/Pages/CreateBlogIntroParagraphPage.jsx:19-33 | as written, reopening the step on the AI tab with a stored introduction shows nothing, and the first save overwrites the stored introduction with the empty string |
| CreateBlogIntro.ReopenKeepsIntro | frontend/src/Pages/CreateBlogIntroParagraphPage.jsx:19-33 | with the stored introduction offered as the only AI option, reopening shows it on either tab and the first save leaves the draft as it was |
| CreateBlogIntro.ReloadRestoresIntro | frontend/src/Pages/CreateBlogIntroParagraphPage.jsx:19-33 | reopening after a save restores the mode and selects the same introduction |
| CreateBlogIntro.IntroPage.constructor | frontend/src/Pages/CreateBlogIntroParagraphPage.jsx:18-24 | as written, the page opens on the draft's mode and manual text with no AI introductions, at index 0, idle and without an error, so on the AI tab nothing is selected |
| CreateBlogIntro.IntroPage.Corrected | frontend/src/Pages/CreateBlogIntroParagraphPage.jsx:18-24 | the corrected opening offers the stored introduction as the only AI option and so selects the stored introduction on either tab |
| CreateBlogIntro.IntroPage.SelectOption | frontend/src/Pages/CreateBlogIntroParagraphPage.jsx:74 | choosing an introduction changes only the chosen index, and on the AI tab selects that introduction |
| CreateBlogIntro.IntroPage.SetManual | frontend/src/Pages/CreateBlogIntroParagraphPage.jsx:107 | typing changes only the manual text, which manual mode then selects |
| CreateBlogIntro.IntroPage.SelectMode | frontend/src/Pages/CreateBlogIntroParagraphPage.jsx:156 | switching mode changes only the mode |
| CreateBlogIntro.IntroPage.Generate | frontend/src/Pages/CreateBlogIntroParagraphPage.jsx:35-63 | a draft without an idea or a title sets the fixed message and keeps the options; a reply replaces them and selects the first; a failure keeps them and shows the reply's message or the fallback; the page ends idle |
| CreateBlogImageUpload.Srcs | frontend/src/Pages/CreateBlogImageUploadPage.jsx:108 | the sources of the gallery, one per image, in order |
| CreateBlogImageUpload.Entries | frontend/src/Pages/CreateBlogImageUploadPage.jsx:45-49 | new gallery entries carry exactly the given sources, in order, all marked as uploaded files or all as generated |
| CreateBlogImageUpload.RemoveSrc | frontend/src/Pages/CreateBlogImageUploadPage.jsx:91 | deleting by source never grows the gallery and leaves no image with that source |
| CreateBlogImageUpload.RemoveSrcMembers | frontend/src/Pages/CreateBlogImageUploadPage.jsx:91 | an image survives a delete iff it was in the gallery and has a different source |
| CreateBlogImageUpload.RemoveAbsentSrc | frontend/src/Pages/CreateBlogImageUploadPage.jsx:91 | deleting a source the gallery does not hold changes nothing |
| CreateBlogImageUpload.RemoveSrcAppend | frontend/src/Pages/CreateBlogImageUploadPage.jsx:91 | deleting distributes over the two halves of a gallery |
| CreateBlogImageUpload.DeleteUndoesUpload | frontend/src/Pages/CreateBlogImageUploadPage.jsx:41-100 | deleting a freshly uploaded source gives back the gallery from before the upload |
| CreateBlogImageUpload.SettledSelection | frontend/src/Pages/CreateBlogImageUploadPage.jsx:103-112 | the settled cover is empty iff the gallery is; otherwise it is a gallery source: the current cover when the gallery holds it, else the first image |
| CreateBlogImageUpload.SettledSelectionIdempotent | frontend/src/Pages/CreateBlogImageUploadPage.jsx:103-112 | settling a settled cover changes nothing, so the effect does not loop |
| CreateBlogImageUpload.UploadSelectsNewest | frontend/src/Pages/CreateBlogImageUploadPage.jsx:51-112 | after an upload the newest image is selected and the selection effect keeps it |
| CreateBlogImageUpload.DeleteSelectedSettles | frontend/src/Pages/CreateBlogImageUploadPage.jsx:93-112 | after deleting the selected image the new cover (the first remaining image, or none) is already settled |
| CreateBlogImageUpload.Tick | frontend/src/Pages/CreateBlogImageUploadPage.jsx:120 | one progress tick adds the step or stops at 100, and always moves forward until 100 |
| CreateBlogImageUpload.Progress | frontend/src/Pages/CreateBlogImageUploadPage.jsx:119-121 | progress after any run of ticks stays between its start and 100 |
| CreateBlogImageUpload.ProgressAtLeast | frontend/src/Pages/CreateBlogImageUploadPage.jsx:119-121 | each tick adds at least 3, up to the cap of 100 |
| CreateBlogImageUpload.ProgressCompletes | frontend/src/Pages/CreateBlogImageUploadPage.jsx:115-124 | 34 ticks from 0 always reach 100, whatever the random steps |
| CreateBlogImageUpload.ImageUploadPage.constructor | frontend/src/Pages/CreateBlogImageUploadPage.jsx:15-33 | the page opens with an empty gallery, no cover, the generator closed on its form, and no reference or generated images |
| CreateBlogImageUpload.ImageUploadPage.AddFromFiles | frontend/src/Pages/CreateBlogImageUploadPage.jsx:41-60 | uploaded files go to the front of the gallery and the newest becomes the cover; no files change nothing |
| CreateBlogImageUpload.ImageUploadPage.UploadReference | frontend/src/Pages/CreateBlogImageUploadPage.jsx:64-75 | chosen reference files replace the reference list; no files change nothing |
| CreateBlogImageUpload.ImageUploadPage.RemoveReference | frontend/src/Pages/CreateBlogImageUploadPage.jsx:240 | removing the reference empties the reference list and changes nothing else |
| CreateBlogImageUpload.ImageUploadPage.Select | frontend/src/Pages/CreateBlogImageUploadPage.jsx:204 | clicking an image makes it the cover and changes nothing else |
| CreateBlogImageUpload.ImageUploadPage.DeleteImage | frontend/src/Pages/CreateBlogImageUploadPage.jsx:78-100 | deleting removes every image with that source; a deleted cover passes to the first remaining image, or to none |
| CreateBlogImageUpload.ImageUploadPage.KeepSelectionValid | frontend/src/Pages/CreateBlogImageUploadPage.jsx:103-112 | the selection effect leaves a cover that is a gallery source, or none exactly when the gallery is empty |
| CreateBlogImageUpload.ImageUploadPage.OpenGenerator | frontend/src/Pages/CreateBlogImageUploadPage.jsx:207-210 | opening the generator shows its form and changes nothing else |
| CreateBlogImageUpload.ImageUploadPage.Generate | frontend/src/Pages/CreateBlogImageUploadPage.jsx:115-144 | generating enters the generating stage, restarting progress at 0 when it was not already generating |
| CreateBlogImageUpload.ImageUploadPage.TickProgress | frontend/src/Pages/CreateBlogImageUploadPage.jsx:119-121 | a timer tick advances progress as one tick says and changes nothing else |
| CreateBlogImageUpload.ImageUploadPage.Finish | frontend/src/Pages/CreateBlogImageUploadPage.jsx:126-140 | at 100 the generator shows the two demo images and is done |
| CreateBlogImageUpload.ImageUploadPage.GenerateAnother | frontend/src/Pages/CreateBlogImageUploadPage.jsx:146-150 | generating another clears the results and returns to the form at 0 |
| CreateBlogImageUpload.ImageUploadPage.DoneSave | frontend/src/Pages/CreateBlogImageUploadPage.jsx:152-173 | saving puts the generated images at the front of the gallery, selects the first of them, and closes and resets the generator |
| CreateBlogImageUpload.ImageUploadPage.CloseGenerator | frontend/src/Pages/CreateBlogImageUploadPage.jsx:227-233 | closing resets the generator and leaves the gallery and the cover alone |
| TemplateTable.PillClass | frontend/src/interface/TemplateTableCard.jsx:7-12 | the published style iff the lower-cased status is `published`, the pending style iff it is `pending`, and the saved style for every other status |
| TemplateTable.PillClassIgnoresCase | frontend/src/interface/TemplateTableCard.jsx:8 | the status style does not depend on letter case |
| TemplateTable.NonEmpty | frontend/src/interface/TemplateTableCard.jsx:58 | `filter(Boolean)` keeps exactly the non-empty strings |
| TemplateTable.FilterRows | frontend/src/interface/TemplateTableCard.jsx:48-62 | the search keeps at most the given rows, each of which matches the query |
| TemplateTable.FilterRowsMembers | frontend/src/interface/TemplateTableCard.jsx:48-62 | a row is kept iff it is among the rows and matches the query |
| TemplateTable.FilterRowsAppend | frontend/src/interface/TemplateTableCard.jsx:48-62 | filtering keeps the rows' order: it distributes over the two halves of a list |
| TemplateTable.SearchNormalised | frontend/src/interface/TemplateTableCard.jsx:45-47 | surrounding spaces do not change the search, and a blank search shows every row |
| TemplateTable.TotalPages | frontend/src/interface/TemplateTableCard.jsx:67 | at least one page, enough pages for every row, and no page wholly empty beyond the first |
| TemplateTable.PageRows | frontend/src/interface/TemplateTableCard.jsx:74-77 | a page shows at most page-size rows: the slice of the filtered rows it covers, or nothing past the end |
| TemplateTable.FirstPagesPrefix | frontend/src/interface/TemplateTableCard.jsx:74-77 | the first k pages together are the first k·size filtered rows |
| TemplateTable.PagesCoverRows | frontend/src/interface/TemplateTableCard.jsx:67-77 | all pages together are exactly the filtered rows, in order |
| TemplateTable.Pager.constructor | frontend/src/interface/TemplateTableCard.jsx:66 | the table opens on page 1 |
| TemplateTable.Pager.SearchChanged | frontend/src/interface/TemplateTableCard.jsx:69 | a new search returns to page 1 |
| TemplateTable.Pager.Clamp | frontend/src/interface/TemplateTableCard.jsx:70-72 | a page past the last moves to the last; a page in range stays |
| TemplateTable.Pager.Previous | frontend/src/interface/TemplateTableCard.jsx:342-345 | Previous goes back one page but not below 1, and the page stays in range |
| TemplateTable.Pager.Next | frontend/src/interface/TemplateTableCard.jsx:354-357 | Next goes forward one page but not past the last, and the page stays in range |
| TemplateTable.Ids | frontend/src/interface/TemplateTableCard.jsx:80 | the ids of the page's rows, one per row, in order |
| TemplateTable.Without | frontend/src/interface/TemplateTableCard.jsx:89-90 | removing ids keeps exactly the ids not dropped |
| TemplateTable.Dedup | frontend/src/interface/TemplateTableCard.jsx:92 | the set of ids without repeats: same members, each once |
| TemplateTable.ToggleAll | frontend/src/interface/TemplateTableCard.jsx:86-94 | when the whole page is selected the page's ids are unselected and the rest kept; otherwise they are added to the selection without duplicates |
| TemplateTable.ToggleAllFlips | frontend/src/interface/TemplateTableCard.jsx:81-94 | select-all flips the page: all selected becomes none of the page selected and vice versa, and ids off the page keep their state |
| TemplateTable.ToggleRow | frontend/src/Pages/CmsHomePage.jsx:55-59 | toggling a row flips that id's selection, leaves every other id alone, and appends a newly selected id |
| TemplateTable.ToggleRowTwice | frontend/src/Pages/CmsHomePage.jsx:55-59 | toggling the same row twice gives back the same selected set |
| TemplateTable.RowsWithout | frontend/src/Pages/CmsHomePage.jsx:66-72 | deleting ids keeps at most the given rows, none with a deleted id |
| TemplateTable.RowsWithoutMembers | frontend/src/Pages/CmsHomePage.jsx:66-72 | a row is kept iff it was there and its id is not deleted |
| TemplateTable.Within | frontend/src/Pages/CmsHomePage.jsx:48-51 | pruning keeps exactly the selected ids that still name a row |
| CmsHome.DoubleQuotes | frontend/src/Pages/CmsHomePage.jsx:93 | doubling quotes never shortens a value and neither adds nor removes line breaks |
| CmsHome.UndoubleDouble | frontend/src/Pages/CmsHomePage.jsx:93 | doubled quotes can be undone |
| CmsHome.EscapeCsv | frontend/src/Pages/CmsHomePage.jsx:91-95 | a value is left as it is iff it holds no quote, comma or line break, and escaping adds no line break |
| CmsHome.EscapeRoundTrip | frontend/src/Pages/CmsHomePage.jsx:91-95 | every escaped value unescapes to the original |
| CmsHome.Records | frontend/src/Pages/CmsHomePage.jsx:99 | one CSV record per row, in order |
| CmsHome.RecordIsOneLine | frontend/src/Pages/CmsHomePage.jsx:99 | a row whose fields hold no line break becomes a single line |
| CmsHome.CsvLines | frontend/src/Pages/CmsHomePage.jsx:97-100 | the export's lines are the header line followed by one record per row |
| CmsHome.PlainRecordSplits | frontend/src/Pages/CmsHomePage.jsx:99 | a record of fields that need no quoting splits on commas back into those fields |
| CmsHome.Dashboard.constructor | frontend/src/Pages/CmsHomePage.jsx:11-45 | the dashboard opens on its rows, an empty search and nothing selected |
| CmsHome.Dashboard.PruneSelection | frontend/src/Pages/CmsHomePage.jsx:47-51 | after the rows change the selection keeps only ids that still name a row |
| CmsHome.Dashboard.ToggleRowSelection | frontend/src/Pages/CmsHomePage.jsx:55-59 | a row checkbox toggles that id and changes nothing else |
| CmsHome.Dashboard.SetSelection | frontend/src/Pages/CmsHomePage.jsx:61-63 | select-all replaces the selection with the ids the table computed |
| CmsHome.Dashboard.DeleteRow | frontend/src/Pages/CmsHomePage.jsx:65-67 | deleting a row removes every row with its id |
| CmsHome.Dashboard.DeleteAll | frontend/src/Pages/CmsHomePage.jsx:69-78 | with a selection, deletes the selected rows; without one, deletes every row; either way the selection ends empty |
| CmsHome.DeletedRowUnselected | frontend/src/Pages/CmsHomePage.jsx:47-67 | once a deleted row's selection is pruned, its id is no longer selected |
| SavedBlogs.BadgeText | frontend/src/Pages/SavedBlogPage.jsx:81 | the badge ends in ` Blogs` |
| SavedBlogs.BadgeCounts | frontend/src/Pages/SavedBlogPage.jsx:81 | the badge starts with the decimal digits of the row count, and they read back as that count |
| SavedBlogs.SavedBlogsPage.constructor | frontend/src/Pages/SavedBlogPage.jsx:11-55 | the page opens on its rows, an empty query and nothing selected |
| SavedBlogs.SavedBlogsPage.ToggleRowSelection | frontend/src/Pages/SavedBlogPage.jsx:57-59 | a row checkbox toggles that id and changes nothing else |
| SavedBlogs.SavedBlogsPage.SetSelection | frontend/src/Pages/SavedBlogPage.jsx:61 | select-all replaces the selection with the ids the table computed |
| SavedBlogs.SavedBlogsPage.DeleteAll | frontend/src/Pages/SavedBlogPage.jsx:63-66 | deleting all empties the rows and the selection, and the badge reads `0 Blogs` |
| SavedBlogs.SavedBlogsPage.DeleteRow | frontend/src/Pages/SavedBlogPage.jsx:68-71 | deleting a row removes every row with its id and unselects that id, leaving every other id's selection alone |
| GalleryCard.ColumnCount | frontend/src/interface/GalleryCard.jsx:33-44 | between 1 and 4 columns, never more than the images (at least 1), one column below 640 px and four from 1280 px with four or more images |
| GalleryCard.ColumnCountMonotone | frontend/src/interface/GalleryCard.jsx:33-44 | a wider grid or more images never gives fewer columns |
| GalleryCard.RatioOf | frontend/src/interface/GalleryCard.jsx:124 | the ratio used is the stored one when it is non-zero, and 1 otherwise |
| GalleryCard.Step | frontend/src/interface/GalleryCard.jsx:125-133 | an image adds more than the 0.12 gap and at most 2.5 plus the gap to its column's height |
| GalleryCard.Steps | frontend/src/interface/GalleryCard.jsx:123-125 | one height step per image, in order, from that image's ratio |
| GalleryCard.ShortestUpTo | frontend/src/interface/GalleryCard.jsx:126-131 | the scan's target is one of the columns scanned |
| GalleryCard.ShortestUpToIsLowest | frontend/src/interface/GalleryCard.jsx:126-131 | the target is no taller than any column scanned and strictly shorter than every column before it: the first shortest column |
| GalleryCard.Shortest | frontend/src/interface/GalleryCard.jsx:126-131 | the chosen column exists |
| GalleryCard.ShortestColumn | frontend/src/interface/GalleryCard.jsx:126-131 | the loop over the column heights picks the column the specification picks |
| GalleryCard.LayoutUpTo | frontend/src/interface/GalleryCard.jsx:117-134 | the layout always has exactly the requested number of columns, each with a height |
| GalleryCard.Positions | frontend/src/interface/GalleryCard.jsx:123 | image positions 0 to n-1 in order |
| GalleryCard.HeightsIgnoreItems | frontend/src/interface/GalleryCard.jsx:124-133 | the column heights depend only on the height steps, not on what the images are |
| GalleryCard.ItemsArePositions | frontend/src/interface/GalleryCard.jsx:123-135 | laying out the images gives the layout of their positions with each position replaced by its image |
| GalleryCard.LayoutPartition | frontend/src/interface/GalleryCard.jsx:123-135 | every image placed so far is in exactly the column chosen for it, no later image is placed, and each column keeps the images' order |
| GalleryCard.LayoutHoldsEveryImage | frontend/src/interface/GalleryCard.jsx:116-136 | every image appears in its chosen column and in no other |
| GalleryCard.ShortestColumnFirst | frontend/src/interface/GalleryCard.jsx:126-133 | each image goes to the first of the shortest columns at the moment it is placed |
| GalleryCard.Columns | frontend/src/interface/GalleryCard.jsx:116-136 | the imperative loop builds the columns the specification gives, with the column count raised to at least 1 |
| GalleryCard.Card.constructor | frontend/src/interface/GalleryCard.jsx:18-22 | the card opens with no known ratios and an empty file input |
| GalleryCard.Card.ImageLoaded | frontend/src/interface/GalleryCard.jsx:46-55 | a loaded image with both sizes non-zero records width/height as its ratio unless one is recorded already; otherwise nothing changes |
| GalleryCard.Card.HandleFiles | frontend/src/interface/GalleryCard.jsx:57-61 | the files are handed to the upload callback iff there is at least one, unchanged; the input is always cleared |
| GalleryPage.BuildPath | frontend/src/Pages/GalleryPage.jsx:17-22 | every listing path starts with the 60-image base; the upload and AI tabs add their source filter and any other tab adds none |
| GalleryPage.TabsDistinctPaths | frontend/src/Pages/GalleryPage.jsx:10-22 | different tabs request different listings |
| GalleryPage.ParseAspectRatio | frontend/src/Pages/GalleryPage.jsx:48-63 | the ratio used for layout is always positive |
| GalleryPage.RatioText | frontend/src/Pages/GalleryPage.jsx:49-52 | a `w:h` ratio with both parts positive numbers gives w/h |
| GalleryPage.RatioFallbacks | frontend/src/Pages/GalleryPage.jsx:54-62 | a positive numeric ratio is used as it is; otherwise positive width and height give their quotient; otherwise the ratio is 1 |
| GalleryPage.ImageOf | frontend/src/Pages/GalleryPage.jsx:70-75 | a listed image's source is truthy or the empty string, and its meta is always an object (truthy) |
| GalleryPage.ImagesOf | frontend/src/Pages/GalleryPage.jsx:70-75 | one gallery image per listed item, in order; no `items` gives no images |
| GalleryPage.PageSteps | frontend/src/Pages/GalleryPage.jsx:120-129 | one height step per image, from its parsed aspect ratio |
| GalleryPage.WithRatios | frontend/src/Pages/GalleryPage.jsx:128 | each placed image carries its positive ratio |
| GalleryPage.FirstFailure | frontend/src/Pages/GalleryPage.jsx:142-144 | the first failing upload, or the end when none fails: every upload before it succeeded |
| GalleryPage.FirstFailureAt | frontend/src/Pages/GalleryPage.jsx:142-144 | the index whose predecessors all succeeded and which fails (or is the end) is the first failure |
| GalleryPage.Gallery.constructor | frontend/src/Pages/GalleryPage.jsx:27-33 | the page opens on the `all` tab with no images, idle, without errors, in one column |
| GalleryPage.Gallery.Load | frontend/src/Pages/GalleryPage.jsx:65-83 | loading requests the tab's path; a reply replaces the images and clears the error; a failure empties them and shows the reply's message or the fallback; the page ends idle |
| GalleryPage.Gallery.SelectTab | frontend/src/Pages/GalleryPage.jsx:85-87 | picking the current tab does nothing; picking another one loads it as above |
| GalleryPage.Gallery.Resize | frontend/src/Pages/GalleryPage.jsx:35-95 | a resize sets the column count the card's rule gives for that width and image count, and changes nothing else |
| GalleryPage.Gallery.Columns | frontend/src/Pages/GalleryPage.jsx:112-132 | the imperative loop builds the masonry columns the card's layout specification gives, with each image's ratio attached |
| GalleryPage.Gallery.HandleUpload | frontend/src/Pages/GalleryPage.jsx:136-149 | no files do nothing; files are sent in order up to and including the first failure, whose message (or the fallback) becomes the upload error; when all succeed the listing reloads |
| TopicIdeaModal.RequestedCount | frontend/src/interface/BlogTopicIdeaGeneratorModal.jsx:53 | the requested count is at least 1: a non-zero decimal count as given, else 5 |
| TopicIdeaModal.OfferedCounts | frontend/src/interface/BlogTopicIdeaGeneratorModal.jsx:196-199 | each count the select offers asks for that many ideas, and no choice asks for 5 |
| TopicIdeaModal.Picked | frontend/src/interface/BlogTopicIdeaGeneratorModal.jsx:80 | the picked idea is the selected one when it exists and is not null, and the empty string otherwise |
| TopicIdeaModal.RequestFor | frontend/src/interface/BlogTopicIdeaGeneratorModal.jsx:53-59 | the generator is called iff it is available, with the trimmed focus and the requested count |
| TopicIdeaModal.Outcome | frontend/src/interface/BlogTopicIdeaGeneratorModal.jsx:50-71 | the error is empty iff the generator returned a non-empty array, which then replaces the ideas with the first selected; otherwise ideas and selection stay and the error is the missing-generator message, the failure's message (or the fallback), or the no-ideas message |
| TopicIdeaModal.DoneAfterGenerate | frontend/src/interface/BlogTopicIdeaGeneratorModal.jsx:59-83 | right after a successful generation, Done picks the first generated idea |
| TopicIdeaModal.Modal.constructor | frontend/src/interface/BlogTopicIdeaGeneratorModal.jsx:13-18 | the modal starts closed, with empty fields, no ideas, index 0, idle and without an error |
| TopicIdeaModal.Modal.Open | frontend/src/interface/BlogTopicIdeaGeneratorModal.jsx:32-39 | opening a closed modal clears the ideas, the selection, the loading flag and the error, and keeps the typed fields |
| TopicIdeaModal.Modal.Close | frontend/src/interface/BlogTopicIdeaGeneratorModal.jsx:22-30 | closing changes only the open flag |
| TopicIdeaModal.Modal.SetFocus | frontend/src/interface/BlogTopicIdeaGeneratorModal.jsx:154-155 | typing a focus changes only the focus |
| TopicIdeaModal.Modal.SetCount | frontend/src/interface/BlogTopicIdeaGeneratorModal.jsx:180-181 | choosing a count changes only the count |
| TopicIdeaModal.Modal.Select | frontend/src/interface/BlogTopicIdeaGeneratorModal.jsx:237 | clicking an idea selects it and changes nothing else |
| TopicIdeaModal.Modal.Generate | frontend/src/interface/BlogTopicIdeaGeneratorModal.jsx:41-48 | when generation is not allowed (blank focus or count, or already loading) nothing happens; otherwise the generation runs |
| TopicIdeaModal.Modal.RunGeneration | frontend/src/interface/BlogTopicIdeaGeneratorModal.jsx:50-77 | a generation run sends the request the request rule gives, applies the outcome rule to ideas, selection and error, and ends idle; regeneration is the same run |
| TopicIdeaModal.Modal.Done | frontend/src/interface/BlogTopicIdeaGeneratorModal.jsx:79-83 | Done hands over the picked idea and closes the modal, changing nothing else |
| BlogDetails.InitialDetails | frontend/src/interface/BlogDetails.jsx:13-20 | language, tone and creativity are never empty (English, Formal and Regular by default); an empty draft gives exactly the defaults; the topic is the selected idea, else the focus |
| BlogDetails.DetailsPatch | frontend/src/interface/BlogDetails.jsx:22-32 | the form saves exactly its eight draft fields, with the topic stored as both the focus and the selected idea |
| BlogDetails.ReloadRestoresDetails | frontend/src/interface/BlogDetails.jsx:13-32 | reopening the form after a save shows the same details |
| BlogDetails.IdeasPayload | frontend/src/interface/BlogDetails.jsx:36-44 | the ideas request carries exactly its seven fields, with the modal's focus and count |
| BlogDetails.TruncateIdeas | frontend/src/interface/BlogDetails.jsx:46-47 | a count of 0 returns every option; otherwise the first count options (or all, when fewer) |
| BlogDetails.TruncateIsPrefix | frontend/src/interface/BlogDetails.jsx:46-47 | the returned ideas are a prefix of the options, no longer than a positive count, and all of them when the count reaches their number |
| BlogDetails.Form.constructor | frontend/src/interface/BlogDetails.jsx:10-20 | the form opens on the details loaded from the draft, with the ideas modal closed |
| BlogDetails.Form.Save | frontend/src/interface/BlogDetails.jsx:22-33 | the save effect merges the form's patch into the stored draft |
| BlogDetails.Form.Edit | frontend/src/interface/BlogDetails.jsx:78-163 | editing one field changes that field only, and the draft is saved with the new details |
| BlogDetails.Form.PickIdea | frontend/src/interface/BlogDetails.jsx:173-175 | a picked idea becomes the topic, the modal closes, and the draft is saved |
| BlogDetails.Form.SetIdeasOpen | frontend/src/interface/BlogDetails.jsx:108-173 | opening or closing the ideas modal changes nothing else |
| BlogDetails.Form.GenerateIdeas | frontend/src/interface/BlogDetails.jsx:35-48 | the request uses the form's keyword, audience, links, tone and creativity, and the ideas returned are the truncated options |
| SignUp.SubmitOutcome | frontend/src/interface/SignUpInterface.jsx:25-30 | the form submits iff the two passwords are equal, then with the trimmed name and email and the untrimmed password, clearing the local error; otherwise it shows the mismatch message |
| SignUp.HandleSubmit | frontend/src/interface/SignUpInterface.jsx:16-31 | with any field blank or while loading nothing happens; otherwise the outcome above; a submission always has matching passwords and no local error |
| SignUp.SubmittedIsConfirmed | frontend/src/interface/SignUpInterface.jsx:16-30 | a submitted account has a non-empty name and email and the confirmed password |
| SignUp.ErrorText | frontend/src/interface/SignUpInterface.jsx:33 | the local error is shown when there is one, else the error passed in |
| SignUp.MismatchShown | frontend/src/interface/SignUpInterface.jsx:25-33 | a password mismatch always shows the mismatch message, whatever the passed-in error |
| SignUp.Form.constructor | frontend/src/interface/SignUpInterface.jsx:10-14 | the form opens with every field and the local error empty |
| SignUp.Form.SetFields | frontend/src/interface/SignUpInterface.jsx:67-133 | typing sets the four fields and leaves the local error alone |
| SignUp.Form.Submit | frontend/src/interface/SignUpInterface.jsx:23-31 | submitting leaves the fields alone and sets the submission and the local error as the submit rule says |
| AdminRouter.AdminItems | backend/app/routers/admin.py:20-28 | one admin item per fetched blog, in order |
| AdminRouter.ApproveApplied | backend/app/routers/admin.py:37-47 | approve_blog's `$set` makes the blog "published", sets updated_at and published_at, and records the reviewing admin and review time under admin_review |
| AdminRouter.RejectApplied | backend/app/routers/admin.py:56-66 | reject_blog's `$set` makes the blog "rejected", sets updated_at, and records the reviewing admin, review time and feedback under admin_review |
| BlogsRouter.BlogItems | backend/app/routers/blogs.py:53-67 | one listed item per fetched blog, in order |
| BlogsRouter.OwnerFilterMeaning | backend/app/routers/blogs.py:49-75 | the owner filter selects exactly the caller's blogs |
| BlogsRouter.DisjointCounts | backend/app/routers/blogs.py:75-80 | counts of mutually exclusive subsets of one selection add up to at most its count |
| BlogsRouter.PublishRequestApplied | backend/app/routers/blogs.py:177-186 | the publish request's `$set` makes the blog "pending", sets updated_at, and records the request time and an empty feedback under admin_review |
| BlogsRouter.ContentSetApplied | backend/app/routers/blogs.py:152-161 | the edit's `$set` replaces meta and final_blog and sets updated_at |
| ImagesRouter.ImageItems | backend/app/routers/images.py:56-66 | one listed item per fetched image record, in order |
| FirestoreDb.StampShape | backend/app/models/firestore_db.py:96 | after stamping, the update keys stay distinct, updated_at is set to now, and every other entry is one of the caller's |
| Common.Lower | frontend/src/interface/TemplateTableCard.jsx:8 | lower-casing keeps the length and maps each character on its own |
| Common.LowerIdempotent | frontend/src/interface/TemplateTableCard.jsx:8 | lower-casing twice is lower-casing once |
| Common.MessageOr | frontend/src/Pages/GalleryPage.jsx:78 | the text shown is never empty: the error's own message when it has one, else the page's fallback |
| Common.Split | frontend/src/Pages/CmsHomePage.jsx:97-100 | splitting gives at least one piece and no piece contains the separator |
| Common.SplitJoin | frontend/src/Pages/CmsHomePage.jsx:97-100 | splitting a join of separator-free pieces gives the pieces back |
| Common.NatToString | frontend/src/Pages/SavedBlogPage.jsx:81 | a count is written as a non-empty run of decimal digits |
| Common.DecimalRoundTrip | frontend/src/Pages/SavedBlogPage.jsx:81 | the written digits read back as the count |

## Left out

- Database and network I/O. This covers the store clients, the Firestore client handles, GCS uploads and the frontend's fetch wrapper. Stores are sequences of documents. Server replies are `Result` parameters of the methods that await them.
- firestore_db.py `get_blog_by_id`, `delete_blog` and `get_image_by_url` are single-document store calls with no logic of their own. The routers' lookups and deletes are modelled over `Collection` instead.
- blogs.py `upload_image` and image_service.py `upload_bytes_to_gcs`, `generate_cover_image`, `_get_client` and `_get_storage_client` are file, cloud-storage and model-API calls. The pure helpers they use are modelled.
- ai.py `topic_ideas`, `titles`, `intros`, `outlines` and `image_prompts` only forward LLM output. That output is a parameter (`AiRouter.Generated`).
- auth.py, password hashing and tokens are library calls. The signed-in user reaches the routers as a `CurrentUser` parameter. The admin check is `AdminRouter.RequireAdmin`.
- Values.SortBy: Python raises `TypeError` when sorting values of different types. The model orders them by the store's type order instead.
- Common.Lower: lower-cases ASCII letters only. Python's `str.lower` and JavaScript's `toLowerCase` also fold other alphabets.
- Base64 decoding is a function parameter of `ImageService.NormalizeImageBytes`. Its output bytes are not modelled.
- `ImageSaveIn` (the save_image payload schema) is not part of this model. Its fields are read as the source reads them.
- Clocks are `now` parameters. The upload page's random image ids (`Date.now` and `Math.random`) are not modelled. Its images are identified by their position and source (`CreateBlogImageUpload.GalleryImage`).
- Each route gets one `now` for all its clock reads. request_publish calls `datetime.utcnow()` twice (blogs.py lines 182-183), approve_blog three times (admin.py lines 41-43) and reject_blog twice (admin.py lines 60-61). The source's readings may differ by microseconds; the model's are equal.
- AdminRouter.ApproveEffect: states that `updated_at`, `published_at` and `admin_review.reviewed_at` are equal. That holds only because the three clock reads share one `now`; the program does not promise it.
- AdminRouter.RejectEffect: states that `updated_at` and `admin_review.reviewed_at` are equal, for the same reason.
- BlogsRouter.PublishRequestEffect: states that `updated_at` and `admin_review.requested_at` are equal, for the same reason.
- Store failures other than the ordered query's are not modelled; those calls always succeed here. In firestore_db.py these are the fallback's own `list(query.stream())` (lines 193 and 396), the `$or` sub-query streams (lines 322-356 and 440-456) and the count streams (lines 235 and 464). In the routers, every MongoDB call is such a call. In the source an exception from any of them propagates to the caller.
- Collection.SetPathGet: a `$set` of a dotted path through a field holding null or a scalar replaces that field with a document holding the new entry. MongoDB rejects such an update with an error instead. save_blog creates every blog with `admin_review` as a document.
- Collection.ApplySetGet: inherits SetPath's replacement of a non-document field on a dotted path, where MongoDB raises an error.
- Collection.ConsecutivePages: the model sorts `find(q).sort("created_at", -1)` stably, so documents with equal `created_at` keep their stored order. MongoDB guarantees no order among such documents. Against a real server, two pages that cut through a tie may overlap or skip a document. FindNewestFirstProps is unaffected: it states only the bound, the membership and the order of keys.
- BlogsRouter.DictAt: reads a missing, falsy or non-dict value as `{}`. In the source, `(b.get("final_blog") or {}).get("render", {})` crashes on a stored `render: None`.
- The get_blog route returns the stored document. Its `response_model=BlogOut` filtering of the fields is not modelled.
- BlogsRouter.OwnerIs: a stored blog without `owner_id` is owned by nobody, so a non-admin gets 403. The source's `b["owner_id"]` raises `KeyError` there (a 500), for admins too.
- DraftStorage.Spread: a stored draft that is a string or an array spreads to no properties. JavaScript's `{...v}` copies a string's characters and an array's elements as indexed properties.
- Common.TextAt: a truthy non-string property reads as "". The pages' `m[key] || ""` would pass it on unchanged.
- PreviewEdited.ExtractCoverUrl: searches the first 1200 characters. JavaScript's `slice(0, 1200)` counts UTF-16 code units, which differ from characters outside the Basic Multilingual Plane.
- GalleryPage.ParseAspectRatio: a numeric `aspect_ratio` is an integer here, because `Json` numbers are integers. A fractional number such as 1.5 is not representable.
- Concurrency is not modelled:
  - two requests interleaving;
  - a reply arriving after the page changed;
  - the read-skew between `$or` sub-queries.

  Every awaited call completes before the next handler runs. The loading flag is seen only at its start and end values.
- JavaScript regular expressions are recogniser parameters (`PreviewEdited.Recognisers`). This covers the cover-line patterns, the `src` search and `normalizeCoverSyntax`. `ensureWidthAttr`'s tests and `parseOutline`'s marker run are written out.
- `Number()` parsing is a function parameter of `GalleryPage.ParseAspectRatio`.
- TopicIdeaModal.RequestedCount: reads a count of decimal digits only. JavaScript's `Number` also accepts surrounding spaces, signs, exponents and hex. The select offers only "", 3, 5 and 10.
- CmsHome.EscapeCsv: takes strings only. The source's mapping of `null`/`undefined` to "" has no counterpart, because every row field is a string here.
- Floating point is modelled as `real`: split percentages, aspect ratios and masonry heights. Rounding is not modelled.
- PreviewEdited.Editor: the pointer position comes in already converted to a percentage. The save to the backend, the blog fetch, the markdown rendering and the write of the split to local storage are not modelled.
- Timers, `Math.random`, object URLs and their revocation, and DOM events are not modelled. They enter only as the transitions they trigger:
  - a progress tick with its step;
  - the 400 ms finish;
  - uploaded files as their URLs.
- Layout and menus are not modelled:
  - the IncreasingDots line measurement;
  - the ResizeObserver (the width is a parameter);
  - the three-dot menus of the table and the gallery;
  - the CSV download anchor.
- The page effects that save the draft (outline, intro, details) are modelled as functions applied to the draft (`SavedDraft`, `IntroPatch`, `DetailsPatch`). BlogDetails.Form saves into a `DraftStorage.Store`.
- IncreasingDots: the `cms:draft` event only refreshes the draft, which is a parameter here.

## Findings

| source | as written | input that shows it | evidently intended | confidence | as-written member | corrected member |
|---|---|---|---|---|---|---|
| frontend/src/Pages/CreateBlogIntroParagraphPage.jsx:20,26-33 | the page opens with no AI introductions, so on the AI tab the selected introduction is "" and the save effect writes `intro_md: ""` on mount | draft `{intro_mode: "ai", intro_md: "Hello"}`, reopen the introduction step | reopening keeps the stored introduction (offered as the selected AI option) | not executed | CreateBlogIntro.ReopenErasesIntro | CreateBlogIntro.ReopenKeepsIntro |

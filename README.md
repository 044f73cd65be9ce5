# In-memory blog-post store

This project models the blog-post store of the express-blog-server. The store is
an ordered collection of posts that lives for as long as the process does. Four
route handlers work on it:

- `GET /posts` lists the collection.
- `POST /posts` appends a shallow copy of the request body.
- `PUT /posts/:id` merges the body into the first post whose `id` matches.
  If no post matches, it answers 404 "Post not found".
- `DELETE /posts/:id` removes every post whose `id` matches and always
  answers 204.

The project has three modules:

- `Json` (json.dfy) holds parsed JSON values and the JavaScript object spread
  `{ ...v }`. An object spreads into its own fields. An array or a string
  spreads into its elements under the keys "0", "1", and so on. Anything else
  spreads into nothing: null, a number, a boolean, or an absent body (modelled
  as `Null`).
- `Posts` (posts.dfy) holds the collection as a value: the seed; the id match
  `post.id === Number(id)`; `findIndex`, as `FindIndex`; the right-biased
  shallow merge, as `Merge`; and the filter, as `Without`. It also holds the
  laws that relate them.
- `Server` (server.dfy) holds the responses, with status codes 200, 201, 204
  and 404 from sections 15.3.1, 15.3.2, 15.3.5 and 15.5.5 of RFC 9110. Its
  `Store` class owns the `posts` sequence, which the handlers reassign in
  place. The module also has an end-to-end client.

A post is a `map<string, Value>`. The path parameter reaches the model already
converted: `Some(n)` when `Number(id)` is the integer `n`, and `None` when it
is NaN or not an integer. `None` matches no post. A post whose `id` is missing
or is not a number never matches either.

## Model

| member | source | states |
|---|---|---|
| Posts.Seed | server/index.js:27-31 | the initial collection has exactly three posts; post i has id i+1 and an empty `comments` array |
| Posts.SeedHasOnlyIdsOneToThree | server/index.js:27-31 | no id other than 1, 2 or 3 is found in the initial collection |
| Server.Store.constructor | server/index.js:27-31 | a new store holds the seed collection |
| Server.Store.List | server/index.js:36-39 | GET /posts answers with status 200 and the current collection, in order, and changes nothing |
| Json.IndexKey | server/index.js:50 | the spread key for an index is a non-empty string of decimal digits with no leading zero; it is one digit long exactly for indices below 10 |
| Json.IndexKeyRoundTrip | server/index.js:50 | reading the key back as a decimal numeral gives the index, so the key is the index's decimal representation |
| Json.IndexKeyInjective | server/index.js:50 | distinct indices give distinct keys, so spreading an array or string keeps every element |
| Json.Indexed | server/index.js:50 | spreading an array gives exactly one key per index, holding that element, and no other keys |
| Json.Spread | server/index.js:50 | spreading an object body gives exactly its fields; an array or string body gives one key per index holding that element (one-character string) and no other keys; any other body gives the empty object |
| Posts.Matches | server/index.js:63 | a parameter that is not an integer matches no post, a post without a numeric `id` matches no parameter, and a match means the post's `id` is exactly that number |
| Server.Store.Create | server/index.js:48-55 | POST /posts appends the spread body as the new last post, leaves every earlier post as it was, and answers with status 201 and that post |
| Posts.FindIndex | server/index.js:63 | the result is the first position whose post matches the id; it is None exactly when no post matches |
| Posts.Merge | server/index.js:67 | the merged post has the keys of both; each key of the body takes the body's value, and every other key keeps the original value |
| Posts.ReplaceMerged | server/index.js:67 | the length is unchanged, the post at the found position becomes the merge, and every other position is unchanged |
| Server.Store.Update | server/index.js:59-73 | with a match, only the first matching post is replaced by its merge with the spread body, and the answer is status 200 with the merged post; with no match, the collection is unchanged and the answer is status 404 with "Post not found" |
| Posts.UpdateKeepsPosition | server/index.js:63-67 | a PUT whose body has no `id` leaves the post where the next lookup by that id finds it |
| Posts.MergeAssociative | server/index.js:67 | two successive merges equal one merge with the combined patch |
| Posts.MergeIdempotent | server/index.js:67 | merging the same patch twice equals merging it once |
| Posts.Without | server/index.js:80 | the filtered collection is no longer than the original and holds exactly the posts that do not match the id |
| Posts.WithoutAppend | server/index.js:80 | filtering distributes over concatenation, so surviving posts keep their relative order |
| Posts.WithoutLength | server/index.js:80 | the filter removes exactly as many posts as match the id |
| Posts.WithoutNoMatch | server/index.js:80 | deleting an id that no post carries leaves the collection unchanged |
| Posts.WithoutIdempotent | server/index.js:80 | deleting twice gives the same collection as deleting once |
| Posts.WithoutLeavesNoMatch | server/index.js:59-82 | after a delete, no post matches the deleted id, so a PUT with that id answers 404 |
| Server.Store.Delete | server/index.js:76-82 | DELETE removes every matching post, keeps the rest, and always answers status 204 with an empty body |
| Posts.UpdateDeleteAsymmetry | server/index.js:59-82 | with two posts sharing an id, PUT changes only the first while DELETE removes at least two posts |
| Posts.FindIndexAppended | server/index.js:48-63 | a post appended under an id no other post carries is the one a lookup by that id finds |
| Posts.WithoutAppended | server/index.js:48-82 | deleting the id of a post appended under a fresh id restores the collection from before the append |
| Server.ScenarioRetitle | server/index.js:67 | the PUT body {title: "T2"} turns {id: 4, title: "T", content: "C"} into {id: 4, title: "T2", content: "C"} |
| Server.ScenarioUpdate | server/index.js:52-67 | after post 4 is created in a collection without post 4, the PUT finds it last and retitles it in place |
| Server.Scenario | server/index.js:36-82 | on any store without post 4, the sequence create, list, retitle, delete, list gives the expected responses and leaves the store as it was |
| Server.EndToEnd | server/index.js:27-82 | on a fresh process the same sequence answers 201, 200 with four posts, 200 with the retitled post, 204, then 200 with the seed |

## Left out

- Express setup, the `cors()` middleware and `express.json()` body parsing (server/index.js:2-12, 24). These are foreign library calls, and malformed JSON is rejected before any handler runs.
- Request logging and the startup message (server/index.js:16-20, 86-88). These are console output.
- `app.listen` on port 3001 (server/index.js:85-88). This is network plumbing.
- The `GET /` welcome text (server/index.js:42-45). It is a constant response and touches no state.
- The conversion `Number(id)` of the path parameter (server/index.js:63, 80). It is floating-point string parsing. The parameter is taken as already converted to `Option<int>`.
- JSON numbers are integers in the model. A post whose `id` is a non-integer number, which `Number(id)` could match, is outside the model.
- JSON serialisation of responses (`res.json`, `res.send`). Responses are a datatype, not wire text.
- The key order of JavaScript objects. A post is a map, so the order in which its keys would be serialised is not modelled.
- A string spreads into one key per character of the model's `string`. JavaScript spreads by UTF-16 code unit, and strict JSON body parsing never delivers a top-level string anyway.
- Concurrency. The handlers run one at a time to completion on a single thread, so each operation is modelled as one atomic step.

# bitbucket-hook-diffstat: changed-path aggregation

This project models how bitbucket-hook-diffstat collects the file paths
changed between two commits from Bitbucket's paginated diffstat endpoint
(`bitbucket_hook_diffstat/main.py`).

- `diffstat_page.dfy`, module `DiffstatPage`, covers `extract_changed_paths`.
  A diffstat entry has an `old` and a `new` side. Each side may be missing,
  `null`, or an object with a `path`. An entry adds the path of each side that
  is present and not null, so a rename adds two paths, an add or a remove adds
  one, and an entry with neither side adds none. `ExtractChangedPaths` is the
  loop over a page's `values`. It is proved equal to the fold `PagePaths`, and
  to "the paths some entry of the page contributes".
- `changed_paths.dfy`, module `ChangedPaths`, covers `get_changed_paths`.
  The loop requests `/2.0/repositories/{owner}/{repo}/diffstat/{to}..{from}`
  first, with the destination commit first. It then unions the paths of each
  page and follows each page's `next` link verbatim. It stops at the first page
  without `next`, or at the first response whose status is not 200. In that
  second case it returns the paths gathered from the earlier pages together
  with an error. It does not raise.
  - The HTTP connection is replaced by the responses it hands back, in request
    order: the k-th request receives `server[k]`.
  - The URLs the loop requests are returned as a ghost trace, so the contract
    can say what was asked for and in what order.
  - `FirstStop` is the index of the last request made. `FetchedPaths` is the
    union of the paths of a prefix of the pages.
- Module `ChangedPathsScenario` holds clients of these contracts. One is the
  two-page example with a rename followed by an added file, which yields
  `{"a", "b", "c"}`. Another is the same chain where the second response is a
  503. That yields `{"a", "b"}` and an error naming the second URL.

On a non-200 page the code does not raise. It returns the
paths accumulated so far beside a non-null error. There is no retry.

## Model

| member | source | states |
|---|---|---|
| DiffstatPage.RecordPaths | bitbucket_hook_diffstat/main.py:46-49 | an entry contributes `old.path` when `old` is present and not null, and `new.path` likewise. It contributes no other path. It contributes nothing exactly when neither side is present and not null. |
| DiffstatPage.PagePathsMembership | bitbucket_hook_diffstat/main.py:35-50 | a path is in a page's path set exactly when some entry of `values` contributes it |
| DiffstatPage.ExtractChangedPaths | bitbucket_hook_diffstat/main.py:34-50 | the loop over `values` returns the page's path set: exactly the paths that some entry contributes, and no other strings |
| ChangedPaths.InitialUrl | bitbucket_hook_diffstat/main.py:9 | the first URL is the diffstat prefix for owner and repo, then `to_commit`, then `..`, then `from_commit`, each at its stated position |
| ChangedPaths.FirstStop | bitbucket_hook_diffstat/main.py:15-29 | the loop's last request is at the first response that is not 200 or has no `next`; every earlier response is a 200 page with `next` |
| ChangedPaths.FetchedPathsMembership | bitbucket_hook_diffstat/main.py:26 | a path is in the accumulated set exactly when some fetched page's `values` contributes it |
| ChangedPaths.FetchedPathsGrow | bitbucket_hook_diffstat/main.py:26 | the accumulator only grows: the paths after `j` pages are among the paths after `k >= j` pages |
| ChangedPaths.GetChangedPaths | bitbucket_hook_diffstat/main.py:5-32 | makes exactly `FirstStop + 1` requests: first the initial URL, then each page's `next` verbatim. The error is absent exactly when the last response is 200. An error carries that response's status and reason and the URL requested. With no error, the paths are the union over every page fetched. With an error, they are the union over the earlier pages only. |

## Left out

- The `http.client` connection, the request headers (credentials), and
  reading and JSON-decoding the body are left out. A response is given as its
  status, its reason and its already parsed page. A body that is not valid
  JSON is not modelled.
- Each page is also written to `changed_paths-{i}.json`. That is file I/O,
  and the counter `i` exists only to name those files, so both are left out.
- The error message text is not modelled. The error carries the status, the
  reason and the URL. The host and the header names that the message also
  interpolates are left out.
- ChangedPaths.GetChangedPaths requires that some response ends the loop. The
  source has no page cap, so an endless `next` chain makes the real loop run
  forever. The model only covers finite chains.
- The responses are fixed in request order and do not depend on the URL
  requested. The trace of requested URLs records which URL each one answered.
- A page without `values`, or a present side without `path`, raises `KeyError`
  in the source. The model's types make both fields mandatory.
- A side's `path` is assumed to be a string. The source adds whatever the
  field holds, `None` included when `path` is `null`.
- A `next` key that is present with value `null` is not modelled. The model's
  `next` is either absent or a string.
- `bitbucket_hook_diffstat/exceptions.py` declares exception classes with no
  behaviour, and `main.py` does not use them.
- Webhook payload interpretation, commit-range resolution, main-branch lookup,
  the retrying HTTP client and per-branch aggregation are not part of this
  model. No source for them is part of it.

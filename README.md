# Restaurant discovery page — a Dafny model

This project models the `/discovery` endpoint of a small restaurant
discovery service (`wolt-internship-backend-2021-master/app.py`). Given a
customer's latitude and longitude, the endpoint returns a page of three
sections: Popular, New and Nearby. Each section holds at most 10
restaurants. The model covers the handler's decision logic:

- the check of the `lat`/`lon` request parameters and the fixed 400 answer;
- the two candidate lists, online and offline, both limited to 1500 around
  the customer and ordered nearest first;
- the top-10-with-fallback rule, which the handler writes out three times
  and the model defines once, as `Fallback.Select`;
- its three uses:
  - Nearby keeps the distance order;
  - Popular sorts each group by popularity, most popular first;
  - New sorts each group by launch date, newest first, and keeps only
    restaurants launched on or after a threshold day;
- the reshaping loop that rewrites each chosen document;
- the fixed order of the sections in the answer.

Modules, one file each:

- `Wrappers` (`wrappers.dfy`): `Option`. A missing or unparsable request
  parameter is `None`.
- `Model` (`model.dfy`): the stored `Restaurant` record, with the six
  required fields of `database/model.py` and the store's `id`. It also has
  `Hit`, a restaurant together with the distance the store measured.
- `Fallback` (`fallback.dfy`): `PageSize` (10) and `Select`.
- `Ranking` (`ranking.dfy`): the store's descending sorts and the inclusive
  launch-date window.
- `Sections` (`sections.dfy`): the online and offline candidate queries, the
  three sections, and what each section is proved to look like.
- `Discovery` (`discovery.dfy`): parameter checking, the response documents,
  the reshaping loop (`Render`, a method that rewrites an array in place) and
  the handler. `GetDiscovery` is the handler. It is proved equal to the pure
  specification `Discover`.

The store's proximity query is a parameter, `ProximityQuery = Point ->
seq<Hit>`. For a point, it gives every stored restaurant with its distance,
nearest first. The model applies the two query conditions to that list:
`max_distance = 1500` (inclusive) and the `online` flag. The nearest-first
order is a promise of the store, so the lemmas that need it take it as a
`requires` (`NearestFirst`).

The New threshold is also a parameter. It is the day four calendar months
before today, as a day number. A restaurant launched on that day is included.

## Model

| member | source | states |
|---|---|---|
| `Fallback.Select` | wolt-internship-backend-2021-master/app.py:92-103 | Every branch of the fill rule (the same code appears again at lines 124-135 and 163-175) gives the first min(n, \|primary\| + \|secondary\|) elements of primary ++ secondary. So the result never holds more than n elements, including in the branch where all of secondary is taken. |
| `Fallback.SelectAt` | wolt-internship-backend-2021-master/app.py:92-103 | Position i of the result is primary[i] while primary lasts, then secondary[i - \|primary\|]. With \|primary\| >= n, the result is primary's first n only. When the two lists hold at most n together, or the result is shorter than n, the result is all of primary followed by all of secondary. |
| `Ranking.Insert` | wolt-internship-backend-2021-master/app.py:116 | One insertion step of the store's sort: the result holds the same hits plus the new one, and starts with either the new hit or the list's old head. |
| `Ranking.InsertDescending` | wolt-internship-backend-2021-master/app.py:116 | Inserting into a list sorted in non-increasing order of a field keeps it sorted. |
| `Ranking.SortDescending` | wolt-internship-backend-2021-master/app.py:116-119 | `order_by('-popularity')` / `order_by('-launch_date')`: the result is in non-increasing order of the field and is a permutation of the input (same multiset). No claim is made about the order of equal keys. |
| `Ranking.LaunchedSince` | wolt-internship-backend-2021-master/app.py:153-158 | After `launch_date__gte = threshold`, every kept hit was launched on or after the threshold day. |
| `Ranking.LaunchedSinceCount` | wolt-internship-backend-2021-master/app.py:154 | The filter keeps each hit launched on or after the threshold exactly as often as the input holds it, and no other hit. The bound is inclusive. |
| `Ranking.LaunchedSinceAtMost` | wolt-internship-backend-2021-master/app.py:153-158 | Filtering cannot introduce a hit that ranks above a bound the input respects. |
| `Ranking.LaunchedSinceDescending` | wolt-internship-backend-2021-master/app.py:153-158 | Filtering a list sorted newest first (or most popular first) leaves it sorted the same way. |
| `Sections.Candidates` | wolt-internship-backend-2021-master/app.py:78-85 | Each of the two queries returns only restaurants with the requested `online` flag that lie within 1500 of the point. |
| `Sections.CandidatesCount` | wolt-internship-backend-2021-master/app.py:78-85 | The query misses nothing: it holds each hit within the radius that has the requested flag, as often as the store's answer holds it, and holds nothing else. |
| `Sections.CandidatesAtLeastAway` | wolt-internship-backend-2021-master/app.py:75-85 | If no hit is nearer than d, no candidate is nearer than d. |
| `Sections.CandidatesNearestFirst` | wolt-internship-backend-2021-master/app.py:75-85 | When the store answers nearest first, each candidate list is also nearest first. |
| `Sections.CandidatesPartition` | wolt-internship-backend-2021-master/app.py:75-85 | The online and offline lists are disjoint. Together they hold every hit within 1500, with its multiplicity. Each keeps the store's nearest-first order. |
| `Sections.AllOnlineSubmultiset` | wolt-internship-backend-2021-master/app.py:116-119 | Sorting or filtering a group cannot bring in a restaurant with the other online flag. |
| `Sections.SelectGroups` | wolt-internship-backend-2021-master/app.py:92-103 | Filling an online list with an offline one gives: at most n items; every online item before every offline one; only online items when there are at least n online; and, when both lists are sorted by a field, sorted by it within each part. |
| `Sections.PrefixSubmultiset` | wolt-internship-backend-2021-master/app.py:93 | A slice `[:k]` contains nothing the whole list does not. |
| `Sections.SelectNearestFirstParts` | wolt-internship-backend-2021-master/app.py:92-103 | When both lists are nearest first, the filled section is nearest first within its online part and within its offline part. |
| `Sections.NearbyOrder` | wolt-internship-backend-2021-master/app.py:88-103 | Nearby is never re-sorted. It equals (online ++ offline)[..min(10, total)]. Online items come first, and offline items appear only when fewer than 10 are online. Distance is non-decreasing within each part. When Nearby holds fewer than 10 items, it holds every candidate. |
| `Sections.TopByPopularity` | wolt-internship-backend-2021-master/app.py:116-125 | Take the first n of a list sorted most popular first: nothing left out is more popular than anything kept. |
| `Sections.PopularOrder` | wolt-internship-backend-2021-master/app.py:114-135 | Popular holds at most 10 items. Online items come first, and offline ones appear only when fewer than 10 are online. Popularity is non-increasing within the online part and within the offline part. |
| `Sections.PopularTopTen` | wolt-internship-backend-2021-master/app.py:116-125 | With 10 or more online candidates, Popular is a true top ten: no online candidate left out is more popular than any shown. |
| `Sections.PopularContents` | wolt-internship-backend-2021-master/app.py:116-135 | Popular holds only candidates. When it holds fewer than 10, it holds all of them. With at most 10 candidates in total, it shows the same restaurants as Nearby (same multiset), possibly in another order. |
| `Sections.WindowGroup` | wolt-internship-backend-2021-master/app.py:152-158 | One group sorted newest first and cut at the threshold: it keeps the group's flag, is newest first, is as long as the group's in-window part, and holds exactly that part. |
| `Sections.NewOrder` | wolt-internship-backend-2021-master/app.py:146-175 | Every New item was launched on or after the threshold. New holds at most 10 items. Online items come first, and offline ones appear only when fewer than 10 online candidates are in the window. Launch date is non-increasing within each part. |
| `Sections.NewContents` | wolt-internship-backend-2021-master/app.py:146-175 | Every New item was launched on or after the threshold, and New holds only candidates, so restaurants launched before the threshold never fill it up. When it holds fewer than 10, it holds every candidate in the window. |
| `Sections.Pick` | wolt-internship-backend-2021-master/app.py:88-175 | None of the three sections computed from one query answer holds more than 10 restaurants. |
| `Sections.PickSections` | wolt-internship-backend-2021-master/app.py:75-85 | When the store answers nearest first, the handler's own online and offline lists each carry one flag and are nearest first, so the section lemmas above apply to the three sections `Pick` computes from them. |
| `Sections.PickOrder` | wolt-internship-backend-2021-master/app.py:88-175 | For the sections built from one nearest-first query answer: online items come first in Nearby, Popular and New; Nearby is nearest first and Popular most popular first within each part; every New item is inside the window. |
| `Discovery.ParseLocation` | wolt-internship-backend-2021-master/app.py:57-68 | The request is accepted exactly when both parameters are present and numeric, -90 <= lat <= 90 and -180 <= lon <= 180. An accepted point is stored as [lon, lat]. |
| `Discovery.Present` | wolt-internship-backend-2021-master/app.py:105-110 | A shown restaurant keeps name, blurhash, online and popularity. Its launch date is rendered as a date. Its location becomes the coordinates list [lon, lat]. |
| `Discovery.PresentRoundTrip` | wolt-internship-backend-2021-master/app.py:77-79 | The shown document determines the restaurant except for its identifier. Two restaurants that differ only in `id` are shown identically, so `id` is excluded. |
| `Discovery.Presented` | wolt-internship-backend-2021-master/app.py:107-110 | A section's documents correspond one to one, in order, with the chosen restaurants. |
| `Discovery.Render` | wolt-internship-backend-2021-master/app.py:105-110 | The in-place reshaping loop (repeated at lines 139-142 and 179-182) turns every stored-form document of the section into its shown form. |
| `Discovery.Discover` | wolt-internship-backend-2021-master/app.py:50-192 | The answer is 400 exactly when the parameters are rejected, and then the body is the fixed message with no section computed. Otherwise the answer is 200 with a page of sections. |
| `Discovery.DiscoverPage` | wolt-internship-backend-2021-master/app.py:68-188 | An accepted request queries the store at [lon, lat]. It answers 200 with exactly three sections, in the order Popular, New, Nearby. Each section shows the restaurants the fill rule picked, and holds at most 10. |
| `Discovery.GetDiscovery` | wolt-internship-backend-2021-master/app.py:50-192 | The handler, written step by step (check, query, fill, reshape, lay out), gives exactly the answer `Discover` specifies. |

## Notes on the code's behaviour

- The fill rule is capped in every branch. When fewer than 10 are online,
  `difference = 10 - len(online)` bounds the offline slice, and when the
  offline list is shorter than that, online ++ offline has fewer than 10
  items anyway. `Select` proves that the result always has length
  min(10, |primary| + |secondary|).
- Equal sort keys have no promised order. `order_by('-popularity')` and
  `order_by('-launch_date')` run inside the store, which does not say how it
  orders ties; in particular distance order is not kept among them. No
  lemma states or uses a tie order, and `SortDescending` is one admissible
  sort.
- `nan` passes the range checks at app.py:63, since every comparison with
  it is false. See `ParseLocation` under "Left out".

## Left out

- HTTP routing, the root greeting, and JSON serialisation (`json.dumps`,
  `jsonify`): plumbing. The response is a datatype (`Response`, `Body`,
  `Section`) with the same status codes, message, titles and section order.
- Database configuration, dropping the collection, and seeding it from
  `restaurants.json`: start-up I/O.
- The store's geospatial query (`location__near`, spherical distance): it
  runs inside the store with floating-point geometry. It is a parameter, and
  each hit carries the store's distance. Its nearest-first order is assumed
  as a `requires` (`NearestFirst`) wherever it is used.
- The store's order among equal sort keys: the code promises none, and so
  does the model.
- Computing "today minus four months" (`datetime.date.today`, `relativedelta`
  month arithmetic): clock access and calendar arithmetic. The threshold day
  is a parameter.
- Rendering dates as "YYYY-MM-DD" text (`fromtimestamp(...).strftime`): it
  depends on the local time zone. A launch date is a day number. Rendering
  is the change of tag from `DateObject` to `DateText`.
- Float parsing of `lat`/`lon`: a parameter that is missing or does not
  parse is `None`. Coordinates are reals.
- ParseLocation: does not model that `float('nan')` passes the range checks,
  because coordinates are reals and have no NaN.
- The unreachable `type(...) != float` check: after `float(...)` it can
  never fail, so it is not modelled.
- Store failures (connection or query errors): they surface as exceptions
  inside the store. The model has no error path for them.

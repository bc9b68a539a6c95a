# WPlace-MegaBOT core, modelled in Dafny

WPlace-MegaBOT is a local server that posts pixels to wplace.live for many
accounts through one automated browser. The browser signs each request with
the site's own code and supplies the challenge token. This project models
the decision logic of that system and proves properties of it. Four source
files make up the core. Each network call, browser evaluation and file
access is an input to the model or a recorded call.

- **The server handlers** (`main.js`, the favourites, pixel, purchase and
  account routes): `server.dfy`. The class `Server.Server` holds the
  favourites, the accounts and the calls made to the backend and the
  browser as sequence fields. Each handler is a method returning the
  HTTP status and updating those fields.
  - Favourite records, `sameLoc`, the upsert and the delete filter:
    `favorites.dfy`.
  - Account records, the patch, the three ways the route id is matched,
    and the refresh-and-autobuy loop as a function of the supplied
    backend answers: `accounts.dfy`.
  - Request validation, `encodeURIComponent`, and the pixel and purchase
    payloads: `requests.dfy`.
  - The calls a handler makes: `calls.dfy`.
- **The browser glue** (`browser.js`): `browser.dfy`.
  - `modifyResponse` is the transform of intercepted scripts. It reroutes
    the captcha callback through `window.cf`, or plants `window.sign`
    after the `set_user_id` header.
  - The class `CaptchaCell` is the closure variable holding the challenge
    token. `cf` writes it. `captchaToken(true)` schedules a clear that
    the page delivers later.
- **The page hooks of the two browser extensions**
  (`WPlace-Helper/scripts/pageHook.js` and
  `WPlace-Helper-FireFox/scripts/pageHook.js`): `pagehook.dfy`.
  - The helpers `isTarget`, `extractWorldXY`, `extractHeader` and
    `extractBodyFields`.
  - The class `Hook` holds the `ENABLED` flag, the shared `lastUrl` and
    the messages posted. Its methods are the fetch, XHR and `sendBeacon`
    hooks and the toggle listener.
  - The Firefox helpers `isTarget`, `extractWorldXY` and `extractHeader`
    (Firefox lines 113-130 and 158-176) are textually the same as the
    Chrome ones, so the same functions model both.
  - Firefox's token-only `extractBodyFields` is `PageHook.ExtractToken`.
    The fingerprint it posts is the `variant` parameter of the hook.
- **The Firefox extension's hand-written MD5** (Firefox `pageHook.js`
  lines 19-111): `md5.dfy`.
  - Modelled over `bv32`, with the `blks` array filled in place and the
    64 steps per block.
  - Proved equal to an independent rendering of RFC 1321 (`rfc1321.dfy`:
    padding of sections 3.1-3.2, buffer of 3.3, rounds of 3.4, output of
    3.5) for strings of one-byte code units (`md5_rfc.dfy`).
  - The test vector of appendix A.5 (`vectors.dfy`).
- **JavaScript semantics the code relies on**: `jsvalues.dfy` covers JSON
  values, truthiness, `ToNumber`, `===` and `Math.floor`. `jsstrings.dfy`
  covers `indexOf`, `slice`, `split`, and `replace` with GetSubstitution
  of ECMA-262 section 22.1.3.19.1.

Behaviour of the code worth noting:

- A pixel request is matched to an account by its `j` token. An unmatched
  token makes the destructuring throw, giving 502.
- There is no check that `colors` and `coords` have the same length.
- The upstream status is never looked at. A 5xx answer deactivates
  nothing.
- The challenge token is not consumed at signing time. The reset is
  scheduled only after the upstream fetch has returned. The cell keeps
  the old token until the page runs the scheduled `cf('')`.
- An account `DELETE` answers 204 whether or not an account matched. It
  answers 404 only for an empty id.
- Token uniqueness is checked at registration, but an update may copy
  another account's token.

## Model

| member | source | states |
|---|---|---|
| Favorites.PostMode | main.js:171 | the stored mode is always `mosaic` or `single`, and it is `mosaic` exactly when the request said `mosaic` |
| Favorites.DeleteMode | main.js:203 | the mode is empty (refused) exactly when the request's mode is neither known mode, and otherwise is the request's mode |
| Favorites.FiniteCoords | main.js:172-173 | an element is kept exactly when `Number(c && c.x)` and `Number(c && c.y)` are both finite; every kept coordinate comes from an element of the request, and the result is empty exactly when no element survives |
| Favorites.Coords | main.js:170-173 | the coordinates exist exactly when the request's `coords` is an array (anything else has no `map` and throws) |
| Favorites.FiniteCoordsAppend | main.js:172-173 | the `map`/`filter` distributes over concatenation, so the kept coordinates keep their order |
| Favorites.CoordsRoundTrip | main.js:172-173 | sending stored coordinates back as JSON numbers yields exactly the same coordinates |
| Favorites.FindLoc | main.js:180-182 | the first index whose entry has the same mode and the same coordinates, and -1 exactly when there is none |
| Favorites.RenameKeepsName | main.js:187 | `name \|\| current.name \|\| ''` keeps its name when posted again, and is truthy exactly when the request's or the stored name is |
| Favorites.RemoveLoc | main.js:212-214 | an entry stays exactly when it was stored and is at another location |
| Favorites.RemoveLocAppend | main.js:214 | the delete filter distributes over concatenation, so the entries kept stay in their order |
| Favorites.RemoveLocOne | main.js:214 | one entry is dropped exactly when it is at the deleted location |
| Favorites.RemoveAbsent | main.js:214 | deleting a location no entry has leaves the store as it was |
| Favorites.RemovedGone | main.js:214 | after a delete no entry at that location remains |
| Favorites.AppendThenRemove | main.js:189 | appending an entry at a new location and then deleting that location restores the store |
| Favorites.AppendValid | main.js:189 | appending a well-formed entry at a new location keeps every location unique |
| Favorites.RenameValid | main.js:187 | renaming an entry keeps every location unique and every entry well formed |
| Favorites.RemoveValid | main.js:214 | a delete keeps every location unique and every entry well formed |
| Server.Server.PostFavorite | main.js:168-198 | 500 when `coords` is no array, 400 and no change when no coordinate survives; otherwise 200 or 201, 201 exactly when no entry is at the location; echoes the normalised record and either renames the first entry at the same location (200, only its name changes) or appends the record (201); the store stays free of duplicate locations |
| Server.Server.DeleteFavorite | main.js:200-221 | 500 when `coords` is no array, 400 and no change for an unknown mode or no coordinates, otherwise 204 and exactly the entries at other locations remain, in order |
| Accounts.FindToken | main.js:377 | the first account whose token is a string equal to the request's, and -1 exactly when none holds it |
| Accounts.FindByToken | main.js:241 | the first account whose token is `===` to `j` (objects and arrays are never equal), and -1 exactly when there is none |
| Server.RegisterOutcome | main.js:368-406 | 400 for a falsy token and 409 for a stored one, both before any call; otherwise exactly one profile fetch, then 400 for a profile without charges, 500 for a token that is not a string, and 201 otherwise; a created account is `NewAccount` of the token, name, proxy and profile |
| Server.RegisteredServesPixels | main.js:387-399 | a fresh string token with a profile that has charges is registered, active unless banned, and found afterwards both by the registration lookup and by the pixel request's `===` lookup, with the digest of the token as its fingerprint |
| Server.RegisterKeepsTokensUnique | main.js:377-381 | a registration never stores a second account for a string token already held |
| Server.Server.Register | main.js:368-406 | the status, the created account and the calls are those of `RegisterOutcome`; the account is appended exactly when one is created |
| Accounts.Patched | main.js:335-342 | only `name`, `token`, `pixelRight`, `active` and `autobuy` can change, each only to a truthy patch value |
| Accounts.PatchNeverDeactivates | main.js:341 | an active account stays active whatever the patch (`active: false` is ignored) |
| Accounts.PatchIdempotent | main.js:338-342 | applying a patch twice is applying it once |
| Server.UpdateMayDuplicateToken | main.js:339 | an update can give an account a token another account already holds |
| Accounts.FindUpdate | main.js:330 | the first account with a truthy id `===` to `+id`, and -1 exactly when there is none |
| Server.Server.UpdateAccount | main.js:326-347 | 404 and no change when no account matches, otherwise 200 with the patched record, which replaces the first match and nothing else |
| Accounts.UpdateVersusDelete | main.js:360 | the numeric match of delete holds whenever the update match does, and the two differ only on the id 0 |
| Accounts.DeleteImpliesLoose | main.js:418 | an id matched by delete is matched by the loose `==` of refresh as well |
| Accounts.RemoveId | main.js:360 | an account stays exactly when it was stored and its numeric id is not `+id` |
| Accounts.RemoveIdAppend | main.js:360 | the delete filter distributes over concatenation, so the accounts kept stay in their order |
| Accounts.RemovedIdGone | main.js:360 | after a delete no account matches the id for an update or a delete |
| Server.Server.DeleteAccount | main.js:351-366 | 404 only for an empty id; otherwise 204, matched or not, and exactly the unmatched accounts remain |
| Accounts.FindLoose | main.js:418 | the first account whose id is loosely equal (`==`) to the route string, and -1 exactly when there is none |
| Accounts.WithProfileMeaning | main.js:428-433 | a fetch sets `active` to `Boolean(me && me.charges && !me.banned)`, updates the snapshot only when active, and changes nothing else |
| Accounts.WithProfile | main.js:428-433 | one profile applied to the account; stated by WithProfileMeaning |
| Accounts.Product | main.js:435-436 | a product exists exactly for autobuy `max` or `rec`; `max` buys 70 and `rec` buys 80 |
| Accounts.QuantityThreshold | main.js:437-439 | a purchase quantity is positive exactly when the droplets reach 500 |
| Accounts.Quantity | main.js:437-438 | `Math.floor(Number(droplets \|\| 0) / 500)`; stated by QuantityThreshold |
| Accounts.RefreshStep | main.js:425-448 | one iteration: fetch, update the flag and snapshot, buy when active with autobuy and a positive quantity, and continue only after a truthy purchase answer |
| Accounts.RefreshFrom | main.js:425-448 | the loop from a given iteration on; stated by RefreshStep |
| Accounts.Refresh | main.js:425-449 | the whole loop on the supplied answers; stated by RefreshBounded, RefreshPurchases, RefreshKeeps, RefreshStops and RefreshContinues, and Server.RunRefresh is proved to compute it |
| Accounts.RefreshBounded | main.js:425-449 | the loop fetches the profile at most twice and buys at most once per fetch |
| Accounts.RefreshPurchases | main.js:435-440 | every call the loop makes is a fetch or a purchase of product 70 or 80 for a positive quantity, with the account's token |
| Accounts.RefreshKeeps | main.js:428-433 | the loop changes only the flag and the snapshot; token, id, fingerprint, name, proxy, pixel right and autobuy stay |
| Accounts.RefreshStops | main.js:441-448 | without a successful first purchase there is one fetch and the account reflects the first profile |
| Accounts.RefreshContinues | main.js:440-444 | after a successful first purchase there are two fetches and the account reflects the second profile |
| Server.RunRefresh | main.js:425-449 | the loop leaves the account and makes the calls that the refresh function of the supplied answers gives |
| Server.Server.RefreshAccount | main.js:409-457 | 400 for an empty id, 404 when no account matches loosely; otherwise 200 with the refreshed account, which replaces the first match, and the loop's calls are recorded |
| Requests.EncodeURIComponent | main.js:243 | the encoding holds only unreserved characters and `%`, so no `/`, and text that is all unreserved is kept |
| Requests.RemotePath | main.js:243 | the upstream pixel URL; stated by RemotePathCoordinates |
| Requests.RemotePathCoordinates | main.js:243 | for decimal tile numbers the upstream URL is one the page hook treats as a pixel request, and its world coordinates are `area` and `no` |
| Requests.LengthFalsy | main.js:234 | reading `length` throws exactly on `null`; an array or string fails exactly when empty |
| Requests.CheckPixel | main.js:232-236 | the request passes exactly when `colors` and `coords` have truthy lengths and `j` is truthy; it throws exactly when a checked value is `null` |
| Requests.NoLengthAgreement | main.js:234 | non-empty colours and coordinates pass whatever their lengths |
| Requests.Fingerprint | main.js:248 | the account's fingerprint when set, else the digest of the token, which exists exactly for a string token |
| Requests.PixelPayload | main.js:244-249 | the payload has exactly the keys `colors`, `coords`, `t`, `fp`, in this order, with the given values |
| Server.PixelOutcome | main.js:229-274 | validation and a missing token answer 400 with no call; an unmatched `j` or a missing fingerprint answers 502 with no call; a matched request is signed for the first token holder with its payload, posted exactly when signing returned, and the token is reset exactly when the post returned; 200 exactly after a reset with a body, which is passed back |
| Server.Delivery | main.js:251-263 | the sign call comes first; the post, with the signature and the token cookie, follows exactly when signing returned; the reset happens exactly when signing and the post both returned; a 502 carries no body |
| Server.PixelSigned | main.js:240-251 | the body is signed for the id of the first account holding the token, with the payload of the request's colours and coordinates, the challenge token and the fingerprint |
| Server.PixelIgnoresStatus | main.js:258-270 | two upstream answers with the same body give the same outcome whatever their statuses |
| Server.PixelKeepsTokenOnFailure | main.js:258-263 | a request whose post threw does not reset the challenge token |
| Server.Server.PostPixel | main.js:229-274 | the status, the passed-back body and the calls are those of `PixelOutcome`; the stored token is unchanged and one clear is scheduled exactly when a reset happened |
| Server.Server.Deliver | main.js:251-270 | signs, posts and resets as `Delivery` says, scheduling one clear per reset |
| Requests.Amount | main.js:287 | `Math.max(1, Number(amount \|\| 1))`: 1 for a falsy amount, a finite amount below 1 or `-Infinity`; the amount itself at or above 1; `Infinity` kept; NaN exactly when the amount converts to NaN |
| Requests.Variant | main.js:288 | there is no variant exactly when the request's is missing or `null`; otherwise it is `Number` of the request's |
| Requests.PurchasePayload | main.js:279-298 | a payload exists exactly when the product id is a positive finite number and `j` is truthy |
| Requests.PurchaseFields | main.js:294-297 | the product holds the given id and the normalised amount, and a variant exactly when the request's converts to a finite number, holding that number |
| Server.PurchaseOutcome | main.js:277-317 | 400 with no call for an invalid request; otherwise exactly one purchase post, and 200 exactly when it answered with a body |
| Server.Server.Purchase | main.js:277-317 | the status, the passed-back body and the calls are those of `PurchaseOutcome` |
| Browser.SegmentEnd | browser.js:60-61 | the segment ends at the first comma from the marker on; with no comma it ends one before the end of the script (`slice`'s reading of -1) |
| Browser.ModifyResponse | browser.js:51-85 | `modifyResponse` as written, through `replace`; its behaviour is stated by NotScriptUnchanged, NoMarkerUnchanged, CaptchaFirst, CaptchaRewritePlain, SignInjectionPlain and DollarTokenLost |
| Browser.ModifyResponseLiteral | browser.js:51-85 | the transform inserting its text literally; stated by CaptchaRewrite, SignInjection and DollarTokenKept |
| Browser.NotScriptUnchanged | browser.js:52-54 | a response whose URL does not end in `.js` is passed through unchanged |
| Browser.NoMarkerUnchanged | browser.js:84 | a script with neither marker is passed through unchanged |
| Browser.CaptchaSegment | browser.js:59-63 | the searched segment runs from the marker's first occurrence to the segment end, occurs first there, and its `split(':')[1]` is the text after the marker up to the next colon |
| Browser.CaptchaRewrite | browser.js:55-65 | with the marker, the segment is replaced by the marker and `window.cf(<var>)`, and the rest of the script is unchanged |
| Browser.CaptchaRewritePlain | browser.js:64-65 | the rewrite as written agrees with the literal one whenever the segment holds no `$` |
| Browser.CaptchaFirst | browser.js:56-66 | once the captcha marker is present the `set_user_id` names play no part |
| Browser.SignInjection | browser.js:82 | the sign helper is inserted right after the first occurrence of the `set_user_id` header, and nothing else changes |
| Browser.SignInjectionPlain | browser.js:82 | the `set_user_id` rewrite as written agrees with the literal one whenever the header and the planted helper hold no `$` |
| Browser.DollarTokenKept | browser.js:64-65 | inserted literally, a token variable named `$$` reaches `window.cf` unchanged |
| Browser.DollarTokenLost | browser.js:64-65 | as written, a token variable named `$$` reaches `window.cf` as `$` |
| Browser.CaptchaCell.constructor | browser.js:41 | the token starts as `null`, with no clear pending |
| Browser.CaptchaCell.Cf | browser.js:122-124 | `cf(token)` stores the token and returns it |
| Browser.CaptchaCell.CaptchaToken | browser.js:131-136 | returns the stored token and leaves it in place; with `reset`, one more clear is scheduled |
| Browser.CaptchaCell.DeliverClear | browser.js:133 | a scheduled `cf('')` sets the token to `''` |
| PageHook.IsTargetMeaning | WPlace-Helper/scripts/pageHook.js:13-15 | a URL is a target exactly when it is a string that starts with the backend origin and contains `/s0/pixel/` |
| PageHook.IsTarget | WPlace-Helper/scripts/pageHook.js:13-15 | `isTarget`; stated by IsTargetMeaning |
| PageHook.DigitRun | WPlace-Helper/scripts/pageHook.js:24 | the greedy `\d+`: all digits, followed by a non-digit or the end |
| PageHook.MatchGroups | WPlace-Helper/scripts/pageHook.js:24-26 | `/^(\d+)\/(\d+)/` matches exactly when two digit runs around a slash start the text, and its groups are the only ones that fit |
| PageHook.AfterPixelPath | WPlace-Helper/scripts/pageHook.js:20-22 | the text after the first occurrence of `/s0/pixel/` |
| PageHook.ExtractWorldXY | WPlace-Helper/scripts/pageHook.js:17-30 | `extractWorldXY`; stated by WorldXYMeaning, WorldXYOfPixelUrl and Requests.RemotePathCoordinates |
| PageHook.WorldXYMeaning | WPlace-Helper/scripts/pageHook.js:17-30 | both coordinates are null or both are set; they are set exactly for a target URL whose suffix matches, and then they are the two groups |
| PageHook.FirstPixelPath | WPlace-Helper/scripts/pageHook.js:20-22 | for a URL made of the origin, the pixel path and a rest, the suffix read is that rest |
| PageHook.WorldXYOfPixelUrl | WPlace-Helper/scripts/pageHook.js:17-30 | a pixel URL with digit tile numbers yields those numbers |
| PageHook.Combined | WPlace-Helper/scripts/pageHook.js:66-67 | a `Headers` lookup is null exactly when no entry has the name, ignoring case |
| PageHook.ListLookup | WPlace-Helper/scripts/pageHook.js:69-72 | a header array yields the value of the first pair whose name matches, and null when none does |
| PageHook.RecordLookup | WPlace-Helper/scripts/pageHook.js:73-76 | a header object yields the value of the first non-empty key that matches ignoring case, and null exactly when none does |
| PageHook.HeaderOf | WPlace-Helper/scripts/pageHook.js:62-80 | the value `extractHeader` returns; stated by Combined, ListLookup, RecordLookup and HeaderCaseInsensitive, and ExtractHeader is proved to return it |
| PageHook.ExtractHeader | WPlace-Helper/scripts/pageHook.js:62-80 | the loops return what the lookup of the header source gives: null for no headers or an empty name, else the first match |
| PageHook.HeaderCaseInsensitive | WPlace-Helper/scripts/pageHook.js:62-80 | the lookup gives the same answer for a name and its lower-case form |
| PageHook.QueryGet | WPlace-Helper/scripts/pageHook.js:54-56 | `params.get` yields the first value under the key, and null exactly when no pair has it |
| PageHook.ExtractBodyFields | WPlace-Helper/scripts/pageHook.js:43-60 | empty text gives nulls; JSON gives the truthy `t` and `fp` of an object; other text gives the `t` and `fp` query parameters |
| PageHook.ExtractToken | WPlace-Helper-FireFox/scripts/pageHook.js:143-156 | the Firefox `extractBodyFields`; stated by TokenAgrees and TokenSource |
| PageHook.TokenAgrees | WPlace-Helper-FireFox/scripts/pageHook.js:143-156 | the Firefox extraction reads the same token as the Chrome one |
| PageHook.TokenSource | WPlace-Helper-FireFox/scripts/pageHook.js:143-156 | a token comes only from a truthy JSON `t` or from a `t` query parameter |
| PageHook.Hook.constructor | WPlace-Helper/scripts/pageHook.js:3 | the hook starts enabled, with no last URL and nothing posted |
| PageHook.Hook.TokenPost | WPlace-Helper/scripts/pageHook.js:99-103 | one message exactly when the token is truthy, carrying the token, the header, the world coordinates and, for Chrome, the body's `fp` (the drawn fingerprint for Firefox) |
| PageHook.Hook.BodyFields | WPlace-Helper-FireFox/scripts/pageHook.js:195 | both variants read the same token from a body |
| PageHook.Hook.OnMessage | WPlace-Helper/scripts/pageHook.js:82-89 | a toggle message sets `ENABLED` to `!!enabled`; any other message changes nothing |
| PageHook.Hook.Fetch | WPlace-Helper/scripts/pageHook.js:91-112 | a target fetch while enabled is answered 204 without the original fetch and posts the token when truthy; any other fetch is delegated and posts nothing |
| PageHook.Hook.Open | WPlace-Helper/scripts/pageHook.js:118-122 | `open` sets the shared `lastUrl` and clears the request's `__xpaw` |
| PageHook.Hook.SetRequestHeader | WPlace-Helper/scripts/pageHook.js:123-128 | `x-pawtect-token`, in any case, is remembered on the request; other headers change nothing |
| PageHook.Hook.Send | WPlace-Helper/scripts/pageHook.js:129-144 | `send` is always delegated; to a target while enabled it posts the token when truthy and clears `__xpaw` |
| PageHook.Hook.SendBeacon | WPlace-Helper/scripts/pageHook.js:146-165 | a beacon to a target while enabled is refused (false) and posts the token when truthy; any other beacon is delegated |
| Md5.AddPlus | WPlace-Helper-FireFox/scripts/pageHook.js:20 | `add` is addition modulo 2^32 |
| Md5.Add | WPlace-Helper-FireFox/scripts/pageHook.js:20 | `add` on 32-bit words; stated by AddPlus |
| Md5.RolRotl | WPlace-Helper-FireFox/scripts/pageHook.js:21 | `rol` is the circular left shift of RFC 1321 section 3.4 |
| Md5.Rol | WPlace-Helper-FireFox/scripts/pageHook.js:21 | `rol`; stated by RolRotl |
| Md5.CmnStep | WPlace-Helper-FireFox/scripts/pageHook.js:22 | `cmn` computes b + ((a + q + x + t) <<< s) |
| Md5.Cmn | WPlace-Helper-FireFox/scripts/pageHook.js:22 | `cmn`; stated by CmnStep |
| Md5.FfStep | WPlace-Helper-FireFox/scripts/pageHook.js:23 | a call of `ff` is one operation of round 1 of RFC 1321 |
| Md5.Ff | WPlace-Helper-FireFox/scripts/pageHook.js:23 | `ff`; stated by FfStep |
| Md5.GgStep | WPlace-Helper-FireFox/scripts/pageHook.js:24 | a call of `gg` is one operation of round 2 |
| Md5.Gg | WPlace-Helper-FireFox/scripts/pageHook.js:24 | `gg`; stated by GgStep |
| Md5.HhStep | WPlace-Helper-FireFox/scripts/pageHook.js:25 | a call of `hh` is one operation of round 3 |
| Md5.Hh | WPlace-Helper-FireFox/scripts/pageHook.js:25 | `hh`; stated by HhStep |
| Md5.IiStep | WPlace-Helper-FireFox/scripts/pageHook.js:26 | a call of `ii` is one operation of round 4 |
| Md5.Ii | WPlace-Helper-FireFox/scripts/pageHook.js:26 | `ii`; stated by IiStep |
| Md5.Round1a | WPlace-Helper-FireFox/scripts/pageHook.js:36-43 | these lines are operations 0-7 of RFC 1321 section 3.4 |
| Md5.Round1b | WPlace-Helper-FireFox/scripts/pageHook.js:44-51 | these lines are operations 8-15 |
| Md5.Round2a | WPlace-Helper-FireFox/scripts/pageHook.js:52-59 | these lines are operations 16-23 |
| Md5.Round2b | WPlace-Helper-FireFox/scripts/pageHook.js:60-67 | these lines are operations 24-31 |
| Md5.Round3a | WPlace-Helper-FireFox/scripts/pageHook.js:68-75 | these lines are operations 32-39 |
| Md5.Round3b | WPlace-Helper-FireFox/scripts/pageHook.js:76-83 | these lines are operations 40-47 |
| Md5.Round4a | WPlace-Helper-FireFox/scripts/pageHook.js:84-91 | these lines are operations 48-55 |
| Md5.Round4b | WPlace-Helper-FireFox/scripts/pageHook.js:92-99 | these lines are operations 56-63 |
| Md5.Block | WPlace-Helper-FireFox/scripts/pageHook.js:35-100 | one pass of the loop body is the RFC 1321 compression of the block, added back to the previous state |
| Md5.BlockCount | WPlace-Helper-FireFox/scripts/pageHook.js:28 | `((len + 8) >> 6) + 1` blocks leave room for the marker and the length: len + 9 <= 64n < len + 73 |
| Md5.PaddingLayout | WPlace-Helper-FireFox/scripts/pageHook.js:28-32 | `blks` is a whole number of 16-word blocks, and every word written, the marker's included, lies before the length word |
| Md5.PackedWords | WPlace-Helper-FireFox/scripts/pageHook.js:30 | the packed array has 16n words, each the OR of its code units shifted to their lanes |
| Md5.JsWords | WPlace-Helper-FireFox/scripts/pageHook.js:29-32 | the filled array has 16n words |
| Md5.NewFilled | WPlace-Helper-FireFox/scripts/pageHook.js:29 | a new array of the size, all zero |
| Md5.PackUnits | WPlace-Helper-FireFox/scripts/pageHook.js:30 | the packing loop leaves the packed words in the array |
| Md5.MarkAndLength | WPlace-Helper-FireFox/scripts/pageHook.js:31-32 | the marker and length-word writes turn the packed words into the filled array |
| Md5.FillBlocks | WPlace-Helper-FireFox/scripts/pageHook.js:28-32 | the array after packing, the `0x80` marker and the bit length |
| Md5.RunBlocks | WPlace-Helper-FireFox/scripts/pageHook.js:33-102 | the block loop, from the RFC 1321 initial buffer, gives the chained compression of all blocks |
| Md5.Md51 | WPlace-Helper-FireFox/scripts/pageHook.js:27-103 | `md51` is the chained compression of the filled array |
| Md5.SarMask | WPlace-Helper-FireFox/scripts/pageHook.js:106 | below the `0xff` mask the sign-copying `>>` agrees with a logical shift |
| Md5.ByteOfWord | WPlace-Helper-FireFox/scripts/pageHook.js:106 | `(num >> (j * 8)) & 0xff` is byte j of the word, low-order first |
| Md5.TwoDigits | WPlace-Helper-FireFox/scripts/pageHook.js:106 | `('0' + v.toString(16)).slice(-2)` is the two lowercase digits of the byte |
| Md5.ToHex | WPlace-Helper-FireFox/scripts/pageHook.js:104-108 | `toHex` spells the word's four bytes, low-order first, two digits each |
| Md5.Md5 | WPlace-Helper-FireFox/scripts/pageHook.js:19-111 | `md5` returns 32 lowercase hexadecimal digits |
| Md5.Md5Hex | WPlace-Helper-FireFox/scripts/pageHook.js:19-111 | the digest `md5` returns; stated by Md5Agreement.Md5Agrees and Vectors.Md5Empty, and Md5.Md5 is proved to return it |
| Md5Agreement.JsWordsAgree | WPlace-Helper-FireFox/scripts/pageHook.js:28-32 | for one-byte code units, the filled array is the RFC 1321 padded message read as little-endian words |
| Md5Agreement.Md5Agrees | WPlace-Helper-FireFox/scripts/pageHook.js:19-111 | for one-byte code units, `md5` is the RFC 1321 digest of the bytes in lowercase hexadecimal |
| Vectors.Md5Empty | WPlace-Helper-FireFox/scripts/pageHook.js:19-111 | `md5("")` is `d41d8cd98f00b204e9800998ecf8427e` (RFC 1321 appendix A.5) |

## Left out

- Express routing, CORS, static files, the favicon and 404 routes, and `GET` of the stores: framework plumbing. Handlers are methods returning a status.
- The tile proxy, the event stream (clients, broadcast, 15 s ping) and `HEAD /api/captcha-ready`: long-lived connections and byte passthrough.
- `impit.fetch`, `fetchMe` and `purchaseProduct`: network I/O. Their answers are parameters, with a missing answer read as the wrapper's `null`. Purchase answers are indexed by loop iteration.
- The one-second pause between refresh iterations: a timer with no effect on the state.
- The JSON files: the stores are in-memory sequences.
  - The loss of `undefined` members and the NaN-to-`null` conversion on writing are not modelled.
  - Stored records are assumed to have the shapes the handlers write.
  - A missing account fingerprint is the empty string.
- Error bodies of 4xx/5xx answers: the model gives only the status; the reply is `None`.
- A body piped back after headers were sent, and pipe errors: stream I/O.
- `crypto.createHash('md5')`: a foreign call, modelled as the deterministic function `digest` fixed at construction.
- `signBody` / `page.evaluate`: the signature is an input; `None` stands for a throw.
- Browser launch, cookie prompt and file, localStorage seeding, `setCookie`, `goto` and `openPage`: browser session set-up.
- The regular expressions of the `set_user_id` branch (browser.js:69-81): the three extracted names are parameters (`FuncNames`).
- `JSON.parse`, `URLSearchParams`, `Blob.text()` and `decodeBodyToText`: host parsers. The request body arrives as text together with what the parsers make of it (`BodyText`), and the `Headers` object as its entries.
- The asynchronous order of the hooks:
  - Each callback runs at the time of the call.
  - The fetch hook's two reads of `ENABLED` see the same value.
  - `window.postMessage` is a recorded message.
- The Firefox `genFp` fingerprint (`Date.now()`, `Math.random()`): nondeterministic. The hooks take it as a parameter.
- The `sendBeacon` hook when the browser has no `sendBeacon`: the hook is then not installed.
- `null` and `undefined`: only distinguished where the code tells them apart (destructuring defaults, `== null`).
- Loose `==` against objects and arrays, for the refresh id: treated as unequal.
- `toLowerCase` and JavaScript strings: `toLowerCase` is modelled on ASCII letters only. Strings are sequences of Unicode scalar values, not UTF-16 code units; the MD5 alone works on code units.
- Numbers are unbounded reals. Rounding to doubles and negative zero are not modelled; `Math.floor` and the NaN and infinity cases are.
- `WPlace-Helper/scripts/background.js` is not part of this model: storage writes and fire-and-forget calls.
- Md5.Md5: requires `|str| + 8 < 2^31`. Longer strings make `len + 8 >> 6` wrap in 32-bit arithmetic, which is not modelled.
- Md5Agreement.Md5Agrees: stated only for code units below 256 and bit lengths below 2^32. Wider code units overlap neighbouring lanes and are not RFC 1321 bytes.
- Server.Server.PostFavorite: it preserves the no-duplicate invariant only for a store that already kept it. A hand-edited file may break the invariant.

## Findings

| source | as written | input that shows it | evidently intended | confidence | as-written member | corrected member |
|---|---|---|---|---|---|---|
| browser.js:64-65 | the captcha segment is rewritten with `String.prototype.replace` and a string replacement, so `$$`, `$&`, `` $` `` and `$'` in the inserted `window.cf(<var>)` text are expanded as substitution patterns | a script containing `.captcha={token:$$,` (a minifier may name the variable `$$`) becomes `.captcha={token:window.cf($),`, so `window.cf` is handed the wrong variable | the segment replaced literally, giving `window.cf($$)` | not executed | Browser.DollarTokenLost | Browser.DollarTokenKept |

`Browser.ModifyResponse` is the transform as written. `Browser.ModifyResponseLiteral` inserts the text literally and is the definition `Browser.CaptchaRewrite` and `Browser.SignInjection` are proved about. The `set_user_id` branch (browser.js:82) has the same exposure for a function header containing `$`.

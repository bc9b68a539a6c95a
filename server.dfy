// The request handlers of the local server over its in-memory stores: the
// favourites, the accounts, and the calls made so far to the backend and
// the automation browser.  The backend's and the browser's answers are
// parameters of each handler; the challenge-token cell is the browser's.

module Server {
  import opened JsValues
  import opened Calls
  import opened Favorites
  import opened Accounts
  import opened Requests
  import Browser

  // --- What the multi-step handlers produce ----------------------------------

  /** A handler's answer and the calls it made, in order; `reset` says
      whether it reset the challenge token. */
  datatype Outcome = Outcome(status: int, reply: Option<string>, made: seq<Call>, reset: bool)

  /** `POST /api/pixel/:area/:no` on the given stores, challenge token and
      answers: `signed` is what `signBody` returned (`None`: it threw),
      `upstream` what the backend's pixel endpoint answered (`None`: the
      fetch threw).  The validation comes first and makes no call; then
      the body is signed, posted, and only once the post has returned is
      the token reset.  The upstream status is not looked at: its body is
      piped back under 200. */
  function PixelOutcome(accs: seq<Account>, token: Option<string>, digest: string -> string,
                        area: string, no: string, body: Json,
                        signed: Option<Json>, upstream: Option<Upstream>): (r: Outcome)
    ensures !CheckPixel(body).PixelOk? ==> r.made == [] && !r.reset && r.status == (if CheckPixel(body).PixelThrows? then 502 else 400)
    ensures CheckPixel(body).PixelOk? && !Browser.TokenReady(token) ==> r == Outcome(400, None, [], false)
    ensures r.status == 200 || r.status == 400 || r.status == 502
    ensures r.reset <==> |r.made| == 3
    ensures r.reset ==> upstream.Some? && r.made[2] == ResetCaptcha
    ensures r.made != [] ==> r.made[0].SignBody? && r.made[0].path == RemotePath(area, no)
    ensures |r.made| >= 2 ==> signed.Some? && r.made[1] == PostPixel(r.made[0].path, r.made[0].payload, CheckPixel(body).jToken, signed.value)
    ensures r.status == 200 <==> r.reset && upstream.value.body.Some?
    ensures r.status == 200 ==> r.reply == upstream.value.body
    ensures var c := CheckPixel(body);
            c.PixelOk? && Browser.TokenReady(token) ==>
              var k := FindByToken(accs, c.jToken);
              (k < 0 || Fingerprint(accs[k].fp, c.jToken, digest).None?) ==> r == Outcome(502, None, [], false)
    ensures var c := CheckPixel(body);
            c.PixelOk? && Browser.TokenReady(token) ==>
              var k := FindByToken(accs, c.jToken);
              k >= 0 && Fingerprint(accs[k].fp, c.jToken, digest).Some? ==>
                r.made != [] && r.made[0] == SignBody(accs[k].id, RemotePath(area, no),
                                  PixelPayload(c.colors, c.coords, token.value, Fingerprint(accs[k].fp, c.jToken, digest).value))
                && (|r.made| >= 2 <==> signed.Some?)
                && (r.reset <==> signed.Some? && upstream.Some?)
  {
    match CheckPixel(body)
    case PixelThrows => Outcome(502, None, [], false)
    case PixelInvalid => Outcome(400, None, [], false)
    case PixelOk(colors, coords, j) =>
      if !Browser.TokenReady(token) then Outcome(400, None, [], false)
      else
        var k := FindByToken(accs, j);
        if k < 0 then Outcome(502, None, [], false)
        else
          var fp := Fingerprint(accs[k].fp, j, digest);
          if fp.None? then Outcome(502, None, [], false)
          else
            var path := RemotePath(area, no);
            var payload := PixelPayload(colors, coords, token.value, fp.value);
            Delivery(accs[k].id, path, payload, j, signed, upstream)
  }

  /** The part of `POST /api/pixel/:area/:no` after the checks: the body
      is signed for the account, posted with the account's token as
      cookie, and once the post has returned the token is reset. */
  function Delivery(id: Option<Json>, path: string, payload: Json, j: Json,
                    signed: Option<Json>, upstream: Option<Upstream>): (r: Outcome)
    ensures r.made != [] && r.made[0] == SignBody(id, path, payload)
    ensures r.reset <==> |r.made| == 3
    ensures r.reset ==> upstream.Some? && r.made[2] == ResetCaptcha
    ensures |r.made| >= 2 ==> signed.Some? && r.made[1] == PostPixel(path, payload, j, signed.value)
    ensures r.status == 200 || r.status == 502
    ensures r.status == 200 <==> r.reset && upstream.value.body.Some?
    ensures r.status == 200 ==> r.reply == upstream.value.body
    ensures |r.made| >= 2 <==> signed.Some?
    ensures r.reset <==> signed.Some? && upstream.Some?
    ensures r.status == 502 ==> r.reply.None?
  {
    var sign := SignBody(id, path, payload);
    if signed.None? then Outcome(502, None, [sign], false)
    else
      var post := PostPixel(path, payload, j, signed.value);
      if upstream.None? then Outcome(502, None, [sign, post], false)
      else if upstream.value.body.None? then Outcome(502, None, [sign, post, ResetCaptcha], true)
      else Outcome(200, upstream.value.body, [sign, post, ResetCaptcha], true)
  }

  /** The signed payload: the request's colours and coordinates, the
      challenge token and the fingerprint, under the keys `colors`,
      `coords`, `t`, `fp` in this order, for the account holding the
      token. */
  lemma PixelSigned(accs: seq<Account>, token: Option<string>, digest: string -> string,
                    area: string, no: string, body: Json, signed: Option<Json>, upstream: Option<Upstream>)
    requires PixelOutcome(accs, token, digest, area, no, body, signed, upstream).made != []
    ensures var c := CheckPixel(body);
            var k := FindByToken(accs, c.jToken);
            var call := PixelOutcome(accs, token, digest, area, no, body, signed, upstream).made[0];
            c.PixelOk? && Browser.TokenReady(token) && k >= 0 && Fingerprint(accs[k].fp, c.jToken, digest).Some?
            && call.id == accs[k].id
            && call.payload == PixelPayload(c.colors, c.coords, token.value, Fingerprint(accs[k].fp, c.jToken, digest).value)
  {
  }

  /** There is no handling of an upstream error: two answers with the same
      body lead to the same outcome whatever their statuses. */
  lemma PixelIgnoresStatus(accs: seq<Account>, token: Option<string>, digest: string -> string,
                           area: string, no: string, body: Json, signed: Option<Json>,
                           s1: int, s2: int, b: Option<string>)
    ensures PixelOutcome(accs, token, digest, area, no, body, signed, Some(Upstream(s1, b)))
         == PixelOutcome(accs, token, digest, area, no, body, signed, Some(Upstream(s2, b)))
  {
  }

  /** A request whose post never returned leaves the token as it was, so
      the next request may use it again. */
  lemma PixelKeepsTokenOnFailure(accs: seq<Account>, token: Option<string>, digest: string -> string,
                                 area: string, no: string, body: Json, signed: Option<Json>)
    ensures !PixelOutcome(accs, token, digest, area, no, body, signed, None).reset
  {
  }

  /** `POST /api/purchase` with the backend's answer (`None`: the fetch
      threw, which this handler answers with 400). */
  function PurchaseOutcome(body: Json, upstream: Option<Upstream>): (r: Outcome)
    ensures PurchasePayload(body).None? ==> r == Outcome(400, None, [], false)
    ensures PurchasePayload(body).Some? ==> r.made == [PostPurchase(PurchasePayload(body).value, GetOr(body, "j", JStr("")))]
    ensures !r.reset && (r.status == 200 || r.status == 400)
    ensures r.status == 200 <==> PurchasePayload(body).Some? && upstream.Some? && upstream.value.body.Some?
    ensures r.status == 200 ==> r.reply == upstream.value.body
  {
    match PurchasePayload(body)
    case None => Outcome(400, None, [], false)
    case Some(payload) =>
      var post := PostPurchase(payload, GetOr(body, "j", JStr("")));
      if upstream.None? || upstream.value.body.None? then Outcome(400, None, [post], false)
      else Outcome(200, upstream.value.body, [post], false)
  }

  datatype Registration = Registration(status: int, created: Option<Account>, made: seq<Call>)

  /** `POST /api/accounts` with the profile `fetchMe` answered (`null` on
      failure). */
  function RegisterOutcome(accs: seq<Account>, body: Json, me: Json, digest: string -> string): (r: Registration)
    ensures !Present(Get(body, "token")) ==> r == Registration(400, None, [])
    ensures Present(Get(body, "token")) && FindToken(accs, Get(body, "token").value) >= 0 ==> r == Registration(409, None, [])
    ensures Present(Get(body, "token")) && FindToken(accs, Get(body, "token").value) < 0 ==> r.made == [FetchMe(Get(body, "token").value)]
    ensures r.created.Some? <==> r.status == 201
    ensures r.status == 201 ==> HasCharges(me) && Get(body, "token").value.JStr?
    ensures r.status == 201 ==> var t := Get(body, "token").value;
              r.created.value == NewAccount(digest(t.s), t, Get(body, "name"), GetOr(body, "proxy", JStr("")), me)
    ensures r.status in {201, 400, 409, 500}
    ensures var t := Get(body, "token");
            Present(t) && FindToken(accs, t.value) < 0 ==>
              (!HasCharges(me) ==> r == Registration(400, None, [FetchMe(t.value)]))
              && (HasCharges(me) && !t.value.JStr? ==> r == Registration(500, None, [FetchMe(t.value)]))
              && (HasCharges(me) && t.value.JStr? ==> r.status == 201)
  {
    var token := Get(body, "token");
    if !Present(token) then Registration(400, None, [])
    else if FindToken(accs, token.value) >= 0 then Registration(409, None, [])
    else
      var fetch := [FetchMe(token.value)];
      if !HasCharges(me) then Registration(400, None, fetch)
      else if !token.value.JStr? then Registration(500, None, fetch)
      else
        var a := NewAccount(digest(token.value.s), token.value, Get(body, "name"), GetOr(body, "proxy", JStr("")), me);
        Registration(201, Some(a), fetch)
  }

  /** No two accounts hold the same string token. */
  predicate UniqueTokens(accs: seq<Account>)
  {
    forall i, j :: 0 <= i < j < |accs| && accs[i].token.JStr? ==> accs[i].token != accs[j].token
  }

  /** A registration never stores a second account for a token. */
  lemma RegisterKeepsTokensUnique(accs: seq<Account>, body: Json, me: Json, digest: string -> string)
    requires UniqueTokens(accs)
    ensures var r := RegisterOutcome(accs, body, me, digest);
            UniqueTokens(accs + if r.created.Some? then [r.created.value] else [])
  {
    var r := RegisterOutcome(accs, body, me, digest);
    if r.created.Some? {
      var t := Get(body, "token").value;
      var n := accs + [r.created.value];
      forall i, j | 0 <= i < j < |n| && n[i].token.JStr?
        ensures n[i].token != n[j].token
      {
        if j == |accs| {
          assert n[j].token == t && n[i] == accs[i];
          assert !HoldsToken(accs[i], t);
        } else {
          assert n[i] == accs[i] && n[j] == accs[j];
        }
      }
    }
  }

  /** A fresh string token with a profile that has charges is registered,
      and the account is the one later requests find: by its token for a
      second registration and by `===` for a pixel request, with the digest
      of the token as its fingerprint. */
  lemma RegisteredServesPixels(accs: seq<Account>, body: Json, me: Json, digest: string -> string)
    requires Present(Get(body, "token")) && Get(body, "token").value.JStr?
    requires FindToken(accs, Get(body, "token").value) < 0 && HasCharges(me)
    ensures var r := RegisterOutcome(accs, body, me, digest);
            var t := Get(body, "token").value;
            r.status == 201 && r.created.Some? && r.created.value.token == t
            && r.created.value.active == JBool(!Present(Get(me, "banned")))
            && FindToken(accs + [r.created.value], t) == |accs| && FindByToken(accs + [r.created.value], t) == |accs|
            && Fingerprint(r.created.value.fp, t, digest) == Some(digest(t.s))
  {
    var r := RegisterOutcome(accs, body, me, digest);
    FoundAfterAppend(accs, r.created.value, Get(body, "token").value);
  }

  /** An update can give an account the token another one holds already. */
  lemma UpdateMayDuplicateToken()
    ensures var a := Account("f", None, JStr("t1"), Some(JNum(Finite(1.0))), Finite(0.0), None, None, Finite(0.0), JBool(true), JStr(""), None, None);
            var b := a.(token := JStr("t2"), id := Some(JNum(Finite(2.0))));
            var body := JObj([("token", JStr("t1"))]);
            UniqueTokens([a, b]) && !UniqueTokens([a, Patched(b, body)])
  {
    var a := Account("f", None, JStr("t1"), Some(JNum(Finite(1.0))), Finite(0.0), None, None, Finite(0.0), JBool(true), JStr(""), None, None);
    var b := a.(token := JStr("t2"), id := Some(JNum(Finite(2.0))));
    var body := JObj([("token", JStr("t1"))]);
    assert Get(body, "token") == Some(JStr("t1"));
    assert Patched(b, body).token == JStr("t1");
    assert [a, Patched(b, body)][1].token == [a, Patched(b, body)][0].token;
  }

  // --- The server -------------------------------------------------------------

  /** The refresh loop of `POST /api/accounts/:id/refresh` on one account:
      the account it leaves and the upstream calls it makes, in order. */
  method RunRefresh(start: Account, mes: seq<Json>, buys: seq<Json>) returns (account: Account, made: seq<Call>)
    ensures (account, made) == Refresh(start, mes, buys)
  {
    account := start;
    made := [];
    var index := 0;
    assert made + RefreshFrom(account, mes, buys, index).1 == RefreshFrom(account, mes, buys, index).1;
    while index < 2
      invariant 0 <= index <= 2
      invariant Refresh(start, mes, buys) == (RefreshFrom(account, mes, buys, index).0, made + RefreshFrom(account, mes, buys, index).1)
      decreases 2 - index
    {
      var me := Answer(mes, index);
      ghost var before, made0 := account, made;
      ghost var bought := false;
      RefreshStep(before, mes, buys, index);
      made := made + [FetchMe(account.token)];
      account := WithProfile(account, me);
      if account.active == JBool(true) {
        if account.autobuy == Some(JStr("max")) || account.autobuy == Some(JStr("rec")) {
          var productId := if account.autobuy == Some(JStr("max")) then 70 else 80;
          var quantity := Quantity(account.droplets);
          if Positive(quantity) {
            assert Buys(before, me) && PurchaseProduct(account.token, productId, quantity) == BuyCall(before, me);
            made := made + [PurchaseProduct(account.token, productId, quantity)];
            bought := true;
            if Truthy(Answer(buys, index)) {
              AppendTwo(made0, FetchMe(before.token), BuyCall(before, me), RefreshFrom(account, mes, buys, index + 1).1);
              index := index + 1;
              continue;
            }
          }
        }
      }
      if bought {
        assert Buys(before, me) && !Truthy(Answer(buys, index));
        AppendTwo(made0, FetchMe(before.token), BuyCall(before, me), []);
      } else {
        assert !Buys(before, me);
      }
      assert made == made0 + RefreshFrom(before, mes, buys, index).1;
      break;
    }
    assert index == 2 ==> made + RefreshFrom(account, mes, buys, index).1 == made;
  }

  class Server {
    var favorites: seq<Fav>
    var accounts: seq<Account>
    var calls: seq<Call>
    const captcha: Browser.CaptchaCell
    /** `crypto.createHash('md5').update(s).digest('hex')`. */
    const digest: string -> string

    constructor(captcha: Browser.CaptchaCell, digest: string -> string)
      ensures favorites == [] && accounts == [] && calls == [] && Valid()
      ensures this.captcha == captcha && this.digest == digest
    {
      favorites := [];
      accounts := [];
      calls := [];
      this.captcha := captcha;
      this.digest := digest;
    }

    predicate Valid()
      reads this
    {
      ValidStore(favorites)
    }

    /** `POST /api/favorites`: rename the entry at the same location, or
        append the incoming one. */
    method PostFavorite(body: Json) returns (status: int, echoed: Option<Fav>)
      modifies this
      ensures old(Valid()) ==> Valid()
      ensures accounts == old(accounts) && calls == old(calls)
      ensures Coords(GetOr(body, "coords", JArr([]))).None? ==> status == 500 && echoed.None? && favorites == old(favorites)
      ensures Coords(GetOr(body, "coords", JArr([]))) == Some([]) ==> status == 400 && echoed.None? && favorites == old(favorites)
      ensures status == 200 || status == 201 ==>
                echoed == Some(Fav(GetOr(body, "name", JStr("")), PostMode(GetOr(body, "mode", JStr(""))), Coords(GetOr(body, "coords", JArr([]))).value))
      ensures status == 201 ==> FindLoc(old(favorites), echoed.value) == -1 && favorites == old(favorites) + [echoed.value]
      ensures status == 200 ==> var k := FindLoc(old(favorites), echoed.value);
                k >= 0 && favorites == old(favorites)[k := old(favorites)[k].(name := MergedName(echoed.value.name, old(favorites)[k].name))]
      ensures status in {200, 201, 400, 500}
      ensures var raw := Coords(GetOr(body, "coords", JArr([])));
              raw.Some? && raw.value != [] ==>
                (status == 200 || status == 201)
                && (status == 201 <==> FindLoc(old(favorites), Fav(GetOr(body, "name", JStr("")), PostMode(GetOr(body, "mode", JStr(""))), raw.value)) == -1)
    {
      ghost var valid := Valid();
      var raw := Coords(GetOr(body, "coords", JArr([])));
      if raw.None? {
        return 500, None;
      }
      var cs := raw.value;
      if cs == [] {
        return 400, None;
      }
      var incoming := Fav(GetOr(body, "name", JStr("")), PostMode(GetOr(body, "mode", JStr(""))), cs);
      var idx := FindLoc(favorites, incoming);
      if idx >= 0 {
        var current := favorites[idx];
        if valid {
          RenameValid(favorites, idx, MergedName(incoming.name, current.name));
        }
        favorites := favorites[idx := current.(name := MergedName(incoming.name, current.name))];
        status := 200;
      } else {
        if valid {
          AppendValid(favorites, incoming);
        }
        favorites := favorites + [incoming];
        status := 201;
      }
      echoed := Some(incoming);
    }

    /** `DELETE /api/favorites`: drop every entry at the location. */
    method DeleteFavorite(body: Json) returns (status: int)
      modifies this
      ensures old(Valid()) ==> Valid()
      ensures accounts == old(accounts) && calls == old(calls)
      ensures Coords(GetOr(body, "coords", JArr([]))).None? ==> status == 500 && favorites == old(favorites)
      ensures var mode := DeleteMode(GetOr(body, "mode", JStr("")));
              var raw := Coords(GetOr(body, "coords", JArr([])));
              raw.Some? ==>
                if mode == "" || raw.value == [] then status == 400 && favorites == old(favorites)
                else status == 204 && favorites == RemoveLoc(old(favorites), Fav(JNull, mode, raw.value))
    {
      ghost var valid := Valid();
      var raw := Coords(GetOr(body, "coords", JArr([])));
      if raw.None? {
        return 500;
      }
      var mode := DeleteMode(GetOr(body, "mode", JStr("")));
      if mode == "" || raw.value == [] {
        return 400;
      }
      if valid {
        RemoveValid(favorites, Fav(JNull, mode, raw.value));
      }
      favorites := RemoveLoc(favorites, Fav(JNull, mode, raw.value));
      status := 204;
    }

    /** `POST /api/pixel/:area/:no`. */
    method PostPixel(area: string, no: string, body: Json, signed: Option<Json>, upstream: Option<Upstream>)
      returns (status: int, reply: Option<string>)
      modifies this, captcha
      ensures favorites == old(favorites) && accounts == old(accounts)
      ensures var r := PixelOutcome(old(accounts), old(captcha.token), digest, area, no, body, signed, upstream);
              status == r.status && reply == r.reply && calls == old(calls) + r.made
              && captcha.token == old(captcha.token)
              && captcha.pendingClears == old(captcha.pendingClears) + (if r.reset then 1 else 0)
    {
      var check := CheckPixel(body);
      if check.PixelThrows? {
        return 502, None;
      }
      if check.PixelInvalid? {
        return 400, None;
      }
      var ready := captcha.CaptchaToken(false);
      if !Browser.TokenReady(ready) {
        return 400, None;
      }
      var k := FindByToken(accounts, check.jToken);
      if k < 0 {
        return 502, None;
      }
      var fp := Fingerprint(accounts[k].fp, check.jToken, digest);
      if fp.None? {
        return 502, None;
      }
      var t := captcha.CaptchaToken(false);
      var payload := PixelPayload(check.colors, check.coords, t.value, fp.value);
      status, reply := Deliver(accounts[k].id, RemotePath(area, no), payload, check.jToken, signed, upstream);
    }

    /** Signs, posts and resets as `Delivery` says. */
    method Deliver(id: Option<Json>, path: string, payload: Json, j: Json, signed: Option<Json>, upstream: Option<Upstream>)
      returns (status: int, reply: Option<string>)
      modifies this, captcha
      ensures favorites == old(favorites) && accounts == old(accounts)
      ensures var r := Delivery(id, path, payload, j, signed, upstream);
              status == r.status && reply == r.reply && calls == old(calls) + r.made
              && captcha.token == old(captcha.token)
              && captcha.pendingClears == old(captcha.pendingClears) + (if r.reset then 1 else 0)
    {
      ghost var before := calls;
      var sign := SignBody(id, path, payload);
      calls := calls + [sign];
      if signed.None? {
        return 502, None;
      }
      var post := Calls.PostPixel(path, payload, j, signed.value);
      calls := calls + [post];
      AppendTwo(before, sign, post, []);
      if upstream.None? {
        return 502, None;
      }
      var _ := captcha.CaptchaToken(true);
      calls := calls + [ResetCaptcha];
      AppendThree(before, sign, post, ResetCaptcha);
      if upstream.value.body.None? {
        return 502, None;
      }
      status, reply := 200, upstream.value.body;
    }

    /** `POST /api/purchase`. */
    method Purchase(body: Json, upstream: Option<Upstream>) returns (status: int, reply: Option<string>)
      modifies this
      ensures favorites == old(favorites) && accounts == old(accounts)
      ensures var r := PurchaseOutcome(body, upstream);
              status == r.status && reply == r.reply && calls == old(calls) + r.made
    {
      var payload := PurchasePayload(body);
      if payload.None? {
        return 400, None;
      }
      calls := calls + [PostPurchase(payload.value, GetOr(body, "j", JStr("")))];
      if upstream.None? || upstream.value.body.None? {
        return 400, None;
      }
      status, reply := 200, upstream.value.body;
    }

    /** `PUT`/`PATCH /api/accounts/:id`. */
    method UpdateAccount(id: string, body: Json) returns (status: int, reply: Option<Account>)
      modifies this
      ensures favorites == old(favorites) && calls == old(calls)
      ensures var k := FindUpdate(old(accounts), id);
              if k < 0 then status == 404 && reply.None? && accounts == old(accounts)
              else status == 200 && reply == Some(Patched(old(accounts)[k], body))
                   && accounts == old(accounts)[k := Patched(old(accounts)[k], body)]
    {
      var idx := FindUpdate(accounts, id);
      if idx < 0 {
        return 404, None;
      }
      var account := Patched(accounts[idx], body);
      accounts := accounts[idx := account];
      status, reply := 200, Some(account);
    }

    /** `DELETE /api/accounts/:id`: 204 whether or not an account
        matched. */
    method DeleteAccount(id: string) returns (status: int)
      modifies this
      ensures favorites == old(favorites) && calls == old(calls)
      ensures id == "" ==> status == 404 && accounts == old(accounts)
      ensures id != "" ==> status == 204 && accounts == RemoveId(old(accounts), id)
    {
      if id == "" {
        return 404;
      }
      accounts := RemoveId(accounts, id);
      status := 204;
    }

    /** `POST /api/accounts` with the answer of `fetchMe`. */
    method Register(body: Json, me: Json) returns (status: int, created: Option<Account>)
      modifies this
      ensures favorites == old(favorites)
      ensures var r := RegisterOutcome(old(accounts), body, me, digest);
              status == r.status && created == r.created && calls == old(calls) + r.made
              && accounts == old(accounts) + (if created.Some? then [created.value] else [])
    {
      var token := Get(body, "token");
      if !Present(token) {
        return 400, None;
      }
      if FindToken(accounts, token.value) >= 0 {
        return 409, None;
      }
      calls := calls + [FetchMe(token.value)];
      if !HasCharges(me) {
        return 400, None;
      }
      if !token.value.JStr? {
        return 500, None;
      }
      var account := NewAccount(digest(token.value.s), token.value, Get(body, "name"), GetOr(body, "proxy", JStr("")), me);
      accounts := accounts + [account];
      status, created := 201, Some(account);
    }

    /** `POST /api/accounts/:id/refresh`: at most two rounds of a profile
        fetch, each followed by an autobuy purchase when the account is
        active, has `max` or `rec` autobuy and enough droplets; the next
        round runs only after a purchase that answered truthy.  `mes` and
        `buys` are the answers of the fetches and purchases of each round. */
    method RefreshAccount(id: string, mes: seq<Json>, buys: seq<Json>) returns (status: int, reply: Option<Account>)
      modifies this
      ensures favorites == old(favorites)
      ensures id == "" ==> status == 400 && reply.None? && accounts == old(accounts) && calls == old(calls)
      ensures id != "" ==> var k := FindLoose(old(accounts), id);
                if k < 0 then status == 404 && reply.None? && accounts == old(accounts) && calls == old(calls)
                else var r := Refresh(old(accounts)[k], mes, buys);
                     status == 200 && reply == Some(r.0) && accounts == old(accounts)[k := r.0] && calls == old(calls) + r.1
    {
      if id == "" {
        return 400, None;
      }
      var idx := FindLoose(accounts, id);
      if idx < 0 {
        return 404, None;
      }
      var account, made := RunRefresh(accounts[idx], mes, buys);
      accounts := accounts[idx := account];
      calls := calls + made;
      status, reply := 200, Some(account);
    }
  }
}


// Safety of the chain service over every history of calls and clock advances.
module ChainLaws {
  import opened Values
  import opened Text
  import opened ChainService
  import Phrase

  datatype Event = Called(endpoint: Json, payload: Json) | Advanced(steps: int)

  // One event; a negative advance raises and changes nothing.
  function Step(s: Chain, e: Event): (Chain, Json)
  {
    match e
    case Called(endpoint, payload) => Answer(s, endpoint, payload)
    case Advanced(steps) => (if steps >= 0 then s.(now := s.now + steps) else s, Null)
  }

  // The service after a history.
  function After(s: Chain, h: seq<Event>): Chain
  {
    if h == [] then s else Step(After(s, h[..|h| - 1]), h[|h| - 1]).0
  }

  function Before(s: Chain, h: seq<Event>, i: nat): Chain
    requires i <= |h|
  {
    After(s, h[..i])
  }

  function Reply(s: Chain, h: seq<Event>, i: nat): Json
    requires i < |h|
  {
    Step(Before(s, h, i), h[i]).1
  }

  predicate Calls(e: Event, endpoint: string)
  {
    e.Called? && e.endpoint == Str(endpoint)
  }

  predicate IsHandshake(h: seq<Event>, i: nat)
    requires i < |h|
  {
    Calls(h[i], "/handshake")
  }

  // A /handshake_commit that succeeded.
  predicate Commits(s: Chain, h: seq<Event>, i: nat)
    requires i < |h|
  {
    Calls(h[i], "/handshake_commit") && Reply(s, h, i).Get("ok") == Bool(true)
  }

  // A /token that handed out the secret.
  predicate Grants(s: Chain, h: seq<Event>, i: nat)
    requires i < |h|
  {
    Calls(h[i], "/token") && Reply(s, h, i).Get("ok") == Bool(true)
  }

  // A /token that hit the temporary failure.
  predicate Hiccups(s: Chain, h: seq<Event>, i: nat)
    requires i < |h|
  {
    Calls(h[i], "/token") && Reply(s, h, i).Get("error") == Str("temporary_failure")
  }

  predicate NoHandshakeIn(h: seq<Event>, from: int, to: int)
    requires 0 <= from && to <= |h|
  {
    forall j | from <= j < to :: !IsHandshake(h, j)
  }

  // The service as a history leaves it: the id and its expiry come from the latest
  // handshake, confirmation from a commit behind it, and the temporary failure is pending
  // until it has been answered once.
  ghost predicate Explained(s: Chain, h: seq<Event>)
  {
    var a := After(s, h);
    && a.secret == s.secret && a.required == s.required && a.code == s.code
    && a.blockedUntil == s.blockedUntil && a.window == s.window
    && (if a.id.None? then a.expires == None && NoHandshakeIn(h, 0, |h|)
        else exists k :: LatestHandshake(s, h, k, a))
    && (a.confirmed ==> exists c :: ConfirmingCommit(s, h, c))
    && (if s.transient && !a.transient then exists x :: OnlyHiccup(s, h, x)
        else a.transient == s.transient && forall j | 0 <= j < |h| :: !Hiccups(s, h, j))
  }

  ghost predicate LatestHandshake(s: Chain, h: seq<Event>, k: int, a: Chain)
  {
    && 0 <= k < |h| && IsHandshake(h, k) && NoHandshakeIn(h, k + 1, |h|)
    && a.id == Some("hs-" + IntText(Before(s, h, k).now))
    && a.expires == Some(Before(s, h, k).now + s.window)
  }

  // A successful commit with no handshake behind it, made while the id was what it is now.
  ghost predicate ConfirmingCommit(s: Chain, h: seq<Event>, c: int)
  {
    && 0 <= c < |h| && Commits(s, h, c) && NoHandshakeIn(h, c + 1, |h|)
    && Before(s, h, c).id == After(s, h).id && Before(s, h, c).expires == After(s, h).expires
  }

  ghost predicate OnlyHiccup(s: Chain, h: seq<Event>, x: int)
  {
    0 <= x < |h| && Hiccups(s, h, x) && forall j | 0 <= j < |h| && j != x :: !Hiccups(s, h, j)
  }

  // ---- the invariant -----------------------------------------------------------------

  predicate StartsFresh(s: Chain)
  {
    s.id == None && s.expires == None && !s.confirmed
  }

  lemma Prefixes(s: Chain, h: seq<Event>, e: Event)
    ensures After(s, h + [e]) == Step(After(s, h), e).0
    ensures Before(s, h + [e], |h|) == After(s, h)
    ensures Reply(s, h + [e], |h|) == Step(After(s, h), e).1
    ensures forall i | 0 <= i <= |h| :: Before(s, h + [e], i) == Before(s, h, i)
    ensures forall i | 0 <= i < |h| :: Reply(s, h + [e], i) == Reply(s, h, i)
    ensures forall i | 0 <= i < |h| :: IsHandshake(h + [e], i) == IsHandshake(h, i)
    ensures forall i | 0 <= i < |h| :: Commits(s, h + [e], i) == Commits(s, h, i)
    ensures forall i | 0 <= i < |h| :: Hiccups(s, h + [e], i) == Hiccups(s, h, i)
  {
    hide Step;
    assert (h + [e])[..|h|] == h;
    forall i | 0 <= i <= |h| ensures Before(s, h + [e], i) == Before(s, h, i) {
      assert (h + [e])[..i] == h[..i];
    }
  }

  lemma Answers(error: string, message: string, field: string, value: Json)
    requires field != "ok" && field != "error"
    ensures Bad(error, message).Get("ok") == Bool(false) && Bad(error, message).Get("error") == Str(error)
    ensures Good(map[field := value]).Get("ok") == Bool(true) && Good(map[field := value]).Get("error") == Null
  {
  }

  lemma TokenFields(a: Chain, payload: Json)
    ensures var r := Token(a, payload);
            && r.0 == a.(tokenCalls := r.0.tokenCalls, rateHits := r.0.rateHits, transient := r.0.transient)
            && (r.0.transient ==> a.transient)
            && (r.1.Get("error") == Str("temporary_failure") <==> a.transient && !r.0.transient)
  {
    hide PayloadValid;
  }

  lemma CommitFields(a: Chain, payload: Json)
    ensures var r := Commit(a, payload);
            && r.0 == a.(confirmed := r.0.confirmed)
            && (a.confirmed ==> r.0.confirmed)
            && (r.0.confirmed && !a.confirmed ==> r.1.Get("ok") == Bool(true))
  {
    hide Expected;
  }

  // What one answer does to the fields the invariant speaks of.
  lemma StepFields(a: Chain, e: Event)
    ensures var r := Step(a, e);
            && r.0.secret == a.secret && r.0.required == a.required && r.0.code == a.code
            && r.0.blockedUntil == a.blockedUntil && r.0.window == a.window
            && (Calls(e, "/handshake") ==>
                  r.0.id == Some("hs-" + IntText(a.now)) && r.0.expires == Some(a.now + a.window) && !r.0.confirmed)
            && (!Calls(e, "/handshake") ==> r.0.id == a.id && r.0.expires == a.expires && (a.confirmed ==> r.0.confirmed))
            && (r.0.confirmed && !a.confirmed ==> Calls(e, "/handshake_commit") && r.1.Get("ok") == Bool(true))
            && (Calls(e, "/token") && r.1.Get("error") == Str("temporary_failure") <==> a.transient && !r.0.transient)
            && (!a.transient ==> !r.0.transient)
  {
    hide IntText, Token, Commit, Good, Bad;
    if e.Called? {
      TokenFields(a, e.payload);
      CommitFields(a, e.payload);
    }
  }

  lemma ExplainedStep(s: Chain, h: seq<Event>, e: Event)
    requires StartsFresh(s) && Explained(s, h)
    ensures Explained(s, h + [e])
  {
    hide Step, After, IntText;
    var a, g := After(s, h), h + [e];
    Prefixes(s, h, e);
    StepFields(a, e);
    var b := After(s, g);
    IdStep(s, h, e);
    if b.confirmed {
      if a.confirmed {
        var c :| ConfirmingCommit(s, h, c);
        assert Commits(s, h, c);
        assert ConfirmingCommit(s, g, c);
      } else {
        assert ConfirmingCommit(s, g, |h|);
      }
    }
    HiccupStep(s, h, e);
  }

  lemma IdStep(s: Chain, h: seq<Event>, e: Event)
    requires StartsFresh(s) && Explained(s, h)
    ensures var g, b := h + [e], After(s, h + [e]);
            if b.id.None? then b.expires == None && NoHandshakeIn(g, 0, |g|) else exists k :: LatestHandshake(s, g, k, b)
  {
    hide Step, After, IntText;
    var a, g := After(s, h), h + [e];
    Prefixes(s, h, e);
    StepFields(a, e);
    var b := After(s, g);
    if Calls(e, "/handshake") {
      assert LatestHandshake(s, g, |h|, b);
    } else if a.id.Some? {
      var k :| LatestHandshake(s, h, k, a);
      assert LatestHandshake(s, g, k, b);
    }
  }

  lemma HiccupStep(s: Chain, h: seq<Event>, e: Event)
    requires Explained(s, h)
    ensures var g, b := h + [e], After(s, h + [e]);
            if s.transient && !b.transient then exists x :: OnlyHiccup(s, g, x)
            else b.transient == s.transient && forall j | 0 <= j < |g| :: !Hiccups(s, g, j)
  {
    hide Step, After, LatestHandshake, ConfirmingCommit;
    var a, g := After(s, h), h + [e];
    Prefixes(s, h, e);
    StepFields(a, e);
    if s.transient && !a.transient {
      var x :| OnlyHiccup(s, h, x);
      assert OnlyHiccup(s, g, x);
    } else if a.transient && !After(s, g).transient {
      assert OnlyHiccup(s, g, |h|);
    }
  }

  lemma {:induction false} AlwaysExplained(s: Chain, h: seq<Event>)
    requires StartsFresh(s)
    ensures Explained(s, h)
  {
    if h == [] {
      assert NoHandshakeIn(h, 0, 0);
    } else {
      AlwaysExplained(s, h[..|h| - 1]);
      ExplainedStep(s, h[..|h| - 1], h[|h| - 1]);
      assert h == h[..|h| - 1] + [h[|h| - 1]];
    }
  }

  // ---- granted tokens ----------------------------------------------------------------

  // A token granted at i is earned: handshake k, then commit c with the right phrase for the
  // id of k and inside the window of k, no other handshake in between or behind, the rate
  // limit over, and the temporary failure answered exactly once if there was one.
  ghost predicate Earned(s: Chain, h: seq<Event>, i: nat, k: int, c: int)
    requires i < |h|
  {
    && Grants(s, h, i)
    && 0 <= k < c < i
    && IsHandshake(h, k) && NoHandshakeIn(h, k + 1, i)
    && Commits(s, h, c)
    && Before(s, h, c).now <= Before(s, h, k).now + s.window
    && (var id := "hs-" + IntText(Before(s, h, k).now);
        && h[c].payload.Get("handshake_id") == Str(id)
        && h[c].payload.Get("response") == Str(Phrase.ChainExpects(id, s.code))
        && h[i].payload.Get("handshake_id") == Str(id))
    && Before(s, h, i).now >= s.blockedUntil
    && PayloadValid(s.required, h[i].payload)
    && (s.transient ==> exists x :: OnlyHiccup(s, h[..i], x))
  }

  // A commit that names neither an id nor a response.
  predicate BareCommit(s: Chain, h: seq<Event>, c: nat)
    requires c < |h|
  {
    && Commits(s, h, c)
    && h[c].payload.Get("handshake_id") == Null && h[c].payload.Get("response") == Null
  }

  lemma CommitMeans(a: Chain, payload: Json)
    ensures Commit(a, payload).1.Get("ok") == Bool(true) <==>
              && payload.Truthy()
              && payload.Get("handshake_id") == OptStr(a.id)
              && (a.expires.Some? ==> a.now <= a.expires.value)
              && payload.Get("response") == Expected(a)
  {
    hide Expected;
  }

  lemma TokenMeans(a: Chain, payload: Json)
    ensures Token(a, payload).1.Get("ok") == Bool(true) <==>
              && a.confirmed
              && PayloadValid(a.required, payload)
              && payload.Get("handshake_id") == OptStr(a.id)
              && a.now >= a.blockedUntil
              && !a.transient
  {
    hide PayloadValid;
  }

  lemma PrefixReplies(s: Chain, h: seq<Event>, i: nat)
    requires i < |h|
    ensures forall j | 0 <= j < i :: Before(s, h[..i], j) == Before(s, h, j) && Reply(s, h[..i], j) == Reply(s, h, j)
    ensures forall j | 0 <= j < i :: IsHandshake(h[..i], j) == IsHandshake(h, j) && Commits(s, h[..i], j) == Commits(s, h, j)
  {
    forall j | 0 <= j < i ensures Before(s, h[..i], j) == Before(s, h, j) {
      assert h[..i][..j] == h[..j];
    }
  }

  // Every granted token is earned exactly when some handshake was made before it; without
  // one, a bare commit came before it.
  lemma GrantExplained(s: Chain, h: seq<Event>, i: nat)
    requires StartsFresh(s) && i < |h| && Grants(s, h, i)
    ensures (exists k, c :: Earned(s, h, i, k, c)) <==> !NoHandshakeIn(h, 0, i)
    ensures NoHandshakeIn(h, 0, i) ==> exists c: nat :: c < i && BareCommit(s, h, c)
  {
    hide After, IntText, Token, Commit, Expected, PayloadValid;
    var g := h[..i];
    var a := After(s, g);
    AlwaysExplained(s, g);
    PrefixReplies(s, h, i);
    TokenMeans(a, h[i].payload);
    assert Answer(a, h[i].endpoint, h[i].payload) == Token(a, h[i].payload);
    var c :| ConfirmingCommit(s, g, c);
    var b := Before(s, h, c);
    assert Answer(b, h[c].endpoint, h[c].payload) == Commit(b, h[c].payload);
    CommitMeans(b, h[c].payload);
    if a.id.None? {
      assert NoHandshakeIn(h, 0, i) by { assert forall j | 0 <= j < i :: !IsHandshake(g, j); }
      NoIdNoPhrase(b);
      assert BareCommit(s, h, c);
    } else {
      var k :| LatestHandshake(s, g, k, a);
      assert IsHandshake(h, k);
      GrantEarned(s, h, i, k, c);
    }
  }

  lemma NoIdNoPhrase(a: Chain)
    requires a.id.None?
    ensures Expected(a) == Null
  {
  }

  lemma FieldsKept(s: Chain, h: seq<Event>)
    requires StartsFresh(s)
    ensures After(s, h).code == s.code && After(s, h).required == s.required
    ensures After(s, h).blockedUntil == s.blockedUntil && After(s, h).window == s.window
  {
    AlwaysExplained(s, h);
  }

  lemma GrantEarned(s: Chain, h: seq<Event>, i: nat, k: int, c: int)
    requires StartsFresh(s) && i < |h| && Grants(s, h, i)
    requires LatestHandshake(s, h[..i], k, Before(s, h, i)) && ConfirmingCommit(s, h[..i], c)
    ensures Earned(s, h, i, k, c)
  {
    hide After, IntText, Token, Commit, PayloadValid, Phrase.ChainExpects;
    var g := h[..i];
    var a, b := Before(s, h, i), Before(s, h, c);
    AlwaysExplained(s, g);
    PrefixReplies(s, h, i);
    TokenMeans(a, h[i].payload);
    assert Answer(a, h[i].endpoint, h[i].payload) == Token(a, h[i].payload);
    assert Answer(b, h[c].endpoint, h[c].payload) == Commit(b, h[c].payload);
    CommitMeans(b, h[c].payload);
    FieldsKept(s, h[..c]);
    FieldsKept(s, g);
    assert IsHandshake(g, k) && Commits(s, g, c) && NoHandshakeIn(g, c + 1, i) && NoHandshakeIn(g, k + 1, i);
    forall j | k + 1 <= j < i ensures !IsHandshake(h, j) { assert !IsHandshake(g, j); }
    assert k < c by {
      assert !IsHandshake(h, c);
      assert forall j | c + 1 <= j < i :: !IsHandshake(g, j);
      assert IsHandshake(g, k);
    }
  }

  // When every commit names a string id, each granted token is earned.
  lemma GrantNeedsHandshake(s: Chain, h: seq<Event>, i: nat)
    requires StartsFresh(s) && i < |h| && Grants(s, h, i)
    requires forall j | 0 <= j < i && Calls(h[j], "/handshake_commit") :: h[j].payload.Get("handshake_id").Str?
    ensures exists k, c :: Earned(s, h, i, k, c)
  {
    hide Earned, Grants, Reply;
    GrantExplained(s, h, i);
    forall c: nat | c < i && Commits(s, h, c) ensures h[c].payload.Get("handshake_id").Str? {
      assert Calls(h[c], "/handshake_commit");
    }
  }

  // A token handed out although no handshake was ever made.
  predicate BareGrant(s: Chain, h: seq<Event>, i: nat)
  {
    i < |h| && NoHandshakeIn(h, 0, i) && Grants(s, h, i)
  }

  // The required payload does not ask for a handshake id.
  predicate AsksNoId(required: map<string, Json>)
  {
    "handshake_id" in required ==> required["handshake_id"].Null?
  }

  // Without that condition a token can be granted although no handshake was ever made: the
  // service compares a missing id with no id, and a missing response with no phrase. This
  // happens on every service but those whose required payload asks for a handshake id,
  // whatever its block, window and pending failure.
  lemma BareCommitGrants(s: Chain)
    requires StartsFresh(s)
    ensures (exists h: seq<Event>, i: nat :: BareGrant(s, h, i)) <==> AsksNoId(s.required)
  {
    if AsksNoId(s.required) {
      BareHistoryGrants(s);
    }
    forall h: seq<Event>, i: nat | BareGrant(s, h, i) ensures AsksNoId(s.required) {
      BareGrantAsksNoId(s, h, i);
    }
  }

  lemma BareGrantAsksNoId(s: Chain, h: seq<Event>, i: nat)
    requires StartsFresh(s) && BareGrant(s, h, i)
    ensures AsksNoId(s.required)
  {
    hide After, IntText, Token, Commit;
    var a := After(s, h[..i]);
    AlwaysExplained(s, h[..i]);
    PrefixReplies(s, h, i);
    TokenMeans(a, h[i].payload);
    assert Answer(a, h[i].endpoint, h[i].payload) == Token(a, h[i].payload);
    assert forall j | 0 <= j < i :: !IsHandshake(h[..i], j);
  }

  // A commit without id and response, the wait for the block, and two calls of /token, of
  // which the first may meet the temporary failure.
  function BareHistory(s: Chain): seq<Event>
  {
    var token := Called(Str("/token"), Obj(s.required));
    [Called(Str("/handshake_commit"), Obj(map["client_id" := Str("x")])),
     Advanced(if s.blockedUntil > s.now then s.blockedUntil - s.now else 0), token, token]
  }

  lemma BareCommitted(s: Chain)
    requires StartsFresh(s)
    ensures Commit(s, Obj(map["client_id" := Str("x")])).0 == s.(confirmed := true)
  {
    var bare := Obj(map["client_id" := Str("x")]);
    assert bare.fields["client_id"] == Str("x");
    assert bare.Get("handshake_id") == Null && bare.Get("response") == Null;
  }

  // Past the block a confirmed service without an id takes the required payload.
  lemma TokenOpens(a: Chain)
    requires a.confirmed && a.id.None? && a.now >= a.blockedUntil && AsksNoId(a.required)
    ensures var r := Token(a, Obj(a.required));
            && r.0 == a.(tokenCalls := a.tokenCalls + 1, transient := false)
            && (!a.transient ==> r.1.Get("ok") == Bool(true))
  {
    assert PayloadValid(a.required, Obj(a.required));
    assert Obj(a.required).Get("handshake_id") == Null;
    TokenMeans(a, Obj(a.required));
    hide PayloadValid;
  }

  lemma BareHistoryGrants(s: Chain)
    requires StartsFresh(s) && AsksNoId(s.required)
    ensures BareGrant(s, BareHistory(s), 3)
  {
    hide Phrase.ChainExpects, After, Token, Commit, AsksNoId;
    var h := BareHistory(s);
    assert h[..1] == [] + [h[0]] && h[..2] == h[..1] + [h[1]] && h[..3] == h[..2] + [h[2]] && h == h[..3] + [h[3]];
    Prefixes(s, [], h[0]);
    Prefixes(s, h[..1], h[1]);
    Prefixes(s, h[..2], h[2]);
    Prefixes(s, h[..3], h[3]);
    BareCommitted(s);
    Untouched(s);
    TokenOpens(After(s, h[..2]));
    TokenOpens(After(s, h[..3]));
  }

  lemma Untouched(s: Chain)
    ensures After(s, []) == s
  {
  }

  // ---- every answer --------------------------------------------------------------------------

  // What the error field of an answer says, None without one.
  function ErrorOf(reply: Json): Option<string>
  {
    if reply.Get("error").Str? then Some(reply.Get("error").s) else None
  }

  lemma RepliesTell(error: string, message: string, wait: int, secret: string)
    ensures ErrorOf(Bad(error, message)) == Some(error) && Bad(error, message).Get("ok") == Bool(false)
    ensures ErrorOf(HandshakeFirst()) == Some("handshake_required") && HandshakeFirst().Get("ok") == Bool(false)
    ensures ErrorOf(BadRequest()) == Some("bad_request") && BadRequest().Get("ok") == Bool(false)
    ensures ErrorOf(Stale()) == Some("invalid_handshake") && Stale().Get("ok") == Bool(false)
    ensures ErrorOf(Hiccup()) == Some("temporary_failure") && Hiccup().Get("ok") == Bool(false)
    ensures ErrorOf(Limited(wait)) == Some("rate_limited") && Limited(wait).Get("ok") == Bool(false)
    ensures Limited(wait).Get("retry_after") == Int(wait)
    ensures ErrorOf(Granted(secret)) == None && Granted(secret).Get("ok") == Bool(true)
    ensures Granted(secret).Get("data").Get("token") == Str(secret)
  {
  }

  lemma GoodTells(fields: map<string, Json>)
    requires "ok" !in fields && "error" !in fields
    ensures ErrorOf(Good(fields)) == None && Good(fields).Get("ok") == Bool(true)
    ensures forall k <- fields :: Good(fields).Get(k) == fields[k]
  {
  }

  lemma EndpointsDiffer()
    ensures Str("/token") != Str("/handshake") && Str("/handshake") != Str("/handshake_commit") && Str("/token") != Str("/handshake_commit")
  {
    assert |"/token"| == 6 && |"/handshake"| == 10 && |"/handshake_commit"| == 17;
  }

  // Which of the answers of /token is given when: the first of five obstacles is the error, in
  // this order, and without any the secret is handed out.
  lemma TokenTells(a: Chain, payload: Json)
    ensures var r := Answer(a, Str("/token"), payload).1;
            var error := ErrorOf(r);
            var valid := !payload.Null? && forall k <- a.required :: payload.Get(k) == a.required[k];
            && error ==
               (if !a.confirmed then Some("handshake_required")
                else if !valid then Some("bad_request")
                else if payload.Get("handshake_id") != OptStr(a.id) then Some("invalid_handshake")
                else if a.now < a.blockedUntil then Some("rate_limited")
                else if a.transient then Some("temporary_failure") else None)
            && r.Get("ok") == Bool(error.None?)
            && (error.None? ==> r.Get("data").Get("token") == Str(a.secret))
            && (error == Some("rate_limited") ==> r.Get("retry_after") == Int(a.blockedUntil - a.now))
  {
    assert PayloadValid(a.required, payload) <==> !payload.Null? && forall k <- a.required :: payload.Get(k) == a.required[k];
    EndpointsDiffer();
    RepliesTell("", "", a.blockedUntil - a.now, a.secret);
    hide PayloadValid, Bad, Good, HandshakeFirst, BadRequest, Stale, Hiccup, Limited, Granted, ErrorOf;
  }

  // /handshake hands out the id of the present time and the end of its window.
  lemma HandshakeTells(a: Chain, payload: Json)
    ensures var r := Answer(a, Str("/handshake"), payload).1;
            && r.Get("ok") == Bool(true) && r.Get("handshake_id") == Str("hs-" + IntText(a.now))
            && r.Get("expires_at_step") == Int(a.now + a.window)
  {
    hide IntText, Good;
    HandshakeFields("hs-" + IntText(a.now), a.now + a.window);
  }

  // /handshake_commit is refused for the first of three reasons, in this order.
  lemma CommitTells(a: Chain, payload: Json)
    ensures var r := Answer(a, Str("/handshake_commit"), payload).1;
            && ErrorOf(r) ==
               (if !payload.Truthy() || payload.Get("handshake_id") != OptStr(a.id) then Some("invalid_handshake")
                else if a.expires.Some? && a.now > a.expires.value then Some("handshake_expired")
                else if payload.Get("response") != Expected(a) then Some("wrong_phrase") else None)
            && r.Get("ok") == Bool(ErrorOf(r).None?)
  {
    EndpointsDiffer();
    RepliesTell("invalid_handshake", "payload required", 0, "");
    RepliesTell("invalid_handshake", "unknown handshake_id", 0, "");
    RepliesTell("handshake_expired", "request a new handshake", 0, "");
    RepliesTell("wrong_phrase", "response does not match template", 0, "");
    GoodTells(map["message" := Str("handshake_confirmed")]);
    hide Bad, Good, HandshakeFirst, BadRequest, Stale, Hiccup, Limited, Granted, ErrorOf, Token, Handshake, Expected;
  }

  // Any other endpoint is unknown and changes nothing.
  lemma UnknownTells(a: Chain, endpoint: Json, payload: Json)
    requires endpoint !in [Str("/handshake"), Str("/handshake_commit"), Str("/token")]
    ensures Answer(a, endpoint, payload).0 == a && ErrorOf(Answer(a, endpoint, payload).1) == Some("not_found")
  {
    RepliesTell("not_found", "unknown endpoint", 0, "");
    hide Bad, Good, ErrorOf, Token, Handshake, Commit;
  }

  lemma HandshakeFields(id: string, expires: int)
    ensures var r := Good(map["handshake_id" := Str(id), "expires_at_step" := Int(expires)]);
            r.Get("ok") == Bool(true) && r.Get("handshake_id") == Str(id) && r.Get("expires_at_step") == Int(expires)
  {
  }

  // How many calls of /token a history holds, and how many of them hit the rate limit.
  function TokenCalls(h: seq<Event>): nat
  {
    if h == [] then 0 else TokenCalls(h[..|h| - 1]) + (if Calls(h[|h| - 1], "/token") then 1 else 0)
  }

  function LimitHits(s: Chain, h: seq<Event>): nat
  {
    if h == [] then 0
    else
      var n := |h| - 1;
      LimitHits(s, h[..n])
      + (if Calls(h[n], "/token") && ErrorOf(Step(After(s, h[..n]), h[n]).1) == Some("rate_limited") then 1 else 0)
  }

  // The time that went by.
  function Elapsed(h: seq<Event>): nat
  {
    if h == [] then 0
    else Elapsed(h[..|h| - 1]) + (if h[|h| - 1].Advanced? && h[|h| - 1].steps > 0 then h[|h| - 1].steps else 0)
  }

  // Clock and counters add up over every history: only advancing moves the clock, each call of
  // /token is counted, and each one refused by the rate limit once more.
  lemma {:induction false} CountersCount(s: Chain, h: seq<Event>)
    ensures var a := After(s, h);
            && a.now == s.now + Elapsed(h)
            && a.tokenCalls == s.tokenCalls + TokenCalls(h)
            && a.rateHits == s.rateHits + LimitHits(s, h)
  {
    hide Answer;
    if h != [] {
      var n := |h| - 1;
      CountersCount(s, h[..n]);
      if h[n].Called? {
        CountStep(After(s, h[..n]), h[n].endpoint, h[n].payload);
      }
    }
  }

  lemma CountStep(a: Chain, endpoint: Json, payload: Json)
    ensures var r := Answer(a, endpoint, payload);
            && r.0.now == a.now
            && r.0.tokenCalls == a.tokenCalls + (if endpoint == Str("/token") then 1 else 0)
            && r.0.rateHits == a.rateHits + (if endpoint == Str("/token") && ErrorOf(r.1) == Some("rate_limited") then 1 else 0)
  {
    if endpoint == Str("/token") { TokenCounts(a, payload); }
    EndpointsDiffer();
    hide IntText, Expected, Token, ErrorOf, Bad, Good;
  }

  lemma TokenCounts(a: Chain, payload: Json)
    ensures var r := Token(a, payload);
            && r.0.now == a.now && r.0.tokenCalls == a.tokenCalls + 1
            && r.0.rateHits == a.rateHits + (if ErrorOf(r.1) == Some("rate_limited") then 1 else 0)
  {
    RepliesTell("", "", a.blockedUntil - a.now, a.secret);
    assert |"rate_limited"| == 12 && |"handshake_required"| == 18 && |"bad_request"| == 11 && |"invalid_handshake"| == |"temporary_failure"| == 17;
    hide PayloadValid, Bad, Good, HandshakeFirst, BadRequest, Stale, Hiccup, Limited, Granted, ErrorOf;
  }
}

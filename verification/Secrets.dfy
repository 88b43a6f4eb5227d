/** The table of pairing secrets: a map from code id to secret that remembers the order
    of insertion, so overwriting an entry keeps its place. */
module Secrets {
  import opened Options
  import opened Pairing

  function Store(secrets: seq<Secret>, s: Secret): (r: seq<Secret>) {
    if secrets == [] then [s]
    else if secrets[0].code == s.code then [s] + secrets[1..]
    else [secrets[0]] + Store(secrets[1..], s)
  }

  function Joined(code: Code, now: nat): Secret {
    Secret(code, Joiner, now, now + PAIRING_TTL)
  }

  /** Storing replaces exactly the entry of the same code and keeps codes distinct. */
  lemma {:induction false} StoreIsUpdate(secrets: seq<Secret>, s: Secret)
    requires DistinctSecrets(secrets)
    ensures DistinctSecrets(Store(secrets, s))
    ensures forall x :: x in Store(secrets, s) <==> x == s || (x in secrets && x.code != s.code)
  {
    if secrets == [] {
    } else {
      var head, tail := secrets[0], secrets[1..];
      assert secrets == [head] + tail;
      assert forall x :: x in tail ==> x.code != head.code by {
        forall x | x in tail ensures x.code != head.code {
          var i :| 0 <= i < |tail| && tail[i] == x;
          assert secrets[i + 1] == x;
        }
      }
      assert DistinctSecrets(tail) by {
        forall i, j | 0 <= i < j < |tail| ensures tail[i].code != tail[j].code {
          assert secrets[i + 1].code != secrets[j + 1].code;
        }
      }
      if head.code == s.code {
      } else {
        StoreIsUpdate(tail, s);
        var rest := Store(tail, s);
        forall i, j | 0 <= i < j < |[head] + rest| ensures ([head] + rest)[i].code != ([head] + rest)[j].code {
          assert rest[j - 1] in rest;
        }
      }
    }
  }

  // Where the entry goes: in place of the first one of its code, or at the end.
  lemma {:induction false} StoreAt(secrets: seq<Secret>, s: Secret, i: nat)
    requires i <= |secrets| && (i < |secrets| ==> secrets[i].code == s.code)
    requires forall j :: 0 <= j < i ==> secrets[j].code != s.code
    ensures Store(secrets, s) == if i < |secrets| then secrets[i := s] else secrets + [s]
  {
    if i > 0 {
      var tail := secrets[1..];
      StoreAt(tail, s, i - 1);
      assert secrets == [secrets[0]] + tail;
    }
  }

  /** A code the user enters is usable at once, was registered no earlier than any
      revocation so far, and leaves every other code as it was. */
  lemma EnteredCodeIsFresh(secrets: seq<Secret>, code: Code, now: nat, revokedAt: nat)
    requires DistinctSecrets(secrets) && revokedAt <= now
    ensures var after := Store(secrets, Joined(code, now));
            && Usable(after, CodeId(code), now)
            && FreshSecret(after, code, revokedAt)
            && (forall id, t: nat :: id != CodeId(code) ==> (Usable(after, id, t) <==> Usable(secrets, id, t)))
            && (forall t: nat :: Usable(after, CodeId(code), t) <==> t < now + 900000)
            && Secret(code, Joiner, now, now + 900000) in after
  {
    var s := Joined(code, now);
    StoreIsUpdate(secrets, s);
    var after := Store(secrets, s);
    assert s in after;
    forall id, t: nat | id != CodeId(code)
      ensures Usable(after, id, t) <==> Usable(secrets, id, t)
    {
      if Usable(secrets, id, t) {
        var x :| x in secrets && CodeId(x.code) == id && Live(x, t);
        assert x in after;
      }
    }
  }

  // ─── Dropping secrets ─────────────────────────────────────────────────────

  function Keep(secrets: seq<Secret>, keep: Secret -> bool): seq<Secret> {
    if secrets == [] then []
    else Keep(secrets[..|secrets| - 1], keep) + if keep(secrets[|secrets| - 1]) then [secrets[|secrets| - 1]] else []
  }

  function Unexpired(now: nat): Secret -> bool {
    (s: Secret) => Live(s, now)
  }

  function RegisteredSince(since: nat): Secret -> bool {
    (s: Secret) => s.createdAt >= since
  }

  function NotJoined(code: Code): Secret -> bool {
    (s: Secret) => s.code != code || s.role.Host?
  }

  /** Exactly the wanted secrets are left, and codes stay distinct. */
  lemma {:induction false} KeepOk(secrets: seq<Secret>, keep: Secret -> bool)
    ensures forall s :: s in Keep(secrets, keep) <==> s in secrets && keep(s)
    ensures DistinctSecrets(secrets) ==> DistinctSecrets(Keep(secrets, keep))
  {
    if secrets != [] {
      var init, last := secrets[..|secrets| - 1], secrets[|secrets| - 1];
      KeepOk(init, keep);
      assert secrets == init + [last];
      if DistinctSecrets(secrets) {
        assert DistinctSecrets(init);
        forall s | s in init ensures s.code != last.code {
          var i :| 0 <= i < |init| && init[i] == s;
          assert secrets[i].code != secrets[|init|].code;
        }
      }
    }
  }

  /** Dropping expired secrets changes nothing that can be done with a code. */
  lemma ExpiryIsUnseen(secrets: seq<Secret>, now: nat, later: nat, id: CodeId)
    requires now <= later
    ensures Usable(Keep(secrets, Unexpired(now)), id, later) <==> Usable(secrets, id, later)
  {
    KeepOk(secrets, Unexpired(now));
    if Usable(secrets, id, later) {
      var s :| s in secrets && CodeId(s.code) == id && Live(s, later);
      assert s in Keep(secrets, Unexpired(now));
    }
  }

  /** Map.get: the one entry of a code. */
  method Lookup(secrets: seq<Secret>, id: CodeId) returns (r: Option<Secret>)
    requires DistinctSecrets(secrets)
    ensures r.None? <==> forall s :: s in secrets ==> CodeId(s.code) != id
    ensures r.Some? ==> r.value in secrets && CodeId(r.value.code) == id
    ensures forall now :: (r.Some? && Live(r.value, now)) <==> Usable(secrets, id, now)
    ensures forall since :: (r.Some? && r.value.createdAt >= since) <==> FreshSecret(secrets, id.code, since)
  {
    var i := 0;
    while i < |secrets| && CodeId(secrets[i].code) != id
      invariant 0 <= i <= |secrets|
      invariant forall j :: 0 <= j < i ==> CodeId(secrets[j].code) != id
    {
      i := i + 1;
    }
    r := if i < |secrets| then Some(secrets[i]) else None;
    assert forall s :: s in secrets && CodeId(s.code) == id ==> r == Some(s);
  }
}

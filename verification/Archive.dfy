/**
 The tables of a group's claims, artifacts and frozen bundles, and the transactions over
 them. A raised conflict rolls the transaction back. Each method makes exactly the change
 that module Ledger describes.
 */
module Archive {
  import opened Basics
  import opened Selection
  import opened Bundles
  import opened Ledger

  class Archive {
    var claims: seq<Claim>
    var artifacts: seq<Artifact>
    var claimOf: map<nat, nat>
    var contexts: map<nat, Bundle>
    var when: map<nat, nat>
    var binding: Binding
    var limits: Option<Limits>

    function Tables(): World
      reads this
    {
      World(claims, artifacts, claimOf, contexts, binding, limits)
    }

    function View(): Ledger
      reads this
    {
      Ledger(Tables(), when)
    }

    constructor ()
      ensures View() == FRESH
    {
      claims, artifacts, claimOf, contexts, when := [], [], map[], map[], map[];
      binding, limits := Binding(None, 0), None;
    }

    method Rollback(w: World, frozen: map<nat, nat>)
      modifies this
      ensures View() == Ledger(w, frozen)
    {
      claims, artifacts, claimOf, contexts, when := w.claims, w.artifacts, w.claimOf, w.contexts, frozen;
      binding, limits := w.binding, w.limits;
    }

    /** insert_claim */
    method InsertClaim(claim: Claim) returns (id: Option<nat>)
      modifies this`claims
      ensures View() == old(View()).(w := Or(old(Tables()), Publish(old(Tables()), claim)))
      ensures id == if Publish(old(Tables()), claim).Some? then Some(PlaceOf(claims, claim)) else None
    {
      var place := PlaceOf(claims, claim);
      if place < |claims| {
        return Some(place);
      }
      if |claims| >= MAX_CLAIMS {
        return None;
      }
      PlaceOfLast(claims, claim);
      id := Some(|claims|);
      claims := claims + [claim];
    }

    /** attach_evidence, for an artifact */
    method AttachArtifact(c: nat, a: nat) returns (ok: bool)
      modifies this`claimOf
      ensures View() == old(View()).(w := Or(old(Tables()), Attach(old(Tables()), c, a)))
      ensures ok <==> Attach(old(Tables()), c, a).Some?
    {
      if c >= |claims| || a >= |artifacts| {
        return false;
      }
      if artifacts[a].statement != claims[c].statement || artifacts[a].setting != claims[c].setting {
        return false;
      }
      if a in claimOf {
        return claimOf[a] == c;
      }
      claimOf := claimOf[a := c];
      ok := true;
    }

    /** insert_artifact */
    method InsertArtifact(statement: string, source: string, setting: Setting) returns (id: Option<nat>)
      modifies this
      ensures View() == old(View()).(w := Or(old(Tables()), Insert(old(Tables()), statement, source, setting)))
      ensures id == if Insert(old(Tables()), statement, source, setting).Some? then Some(|old(artifacts)|) else None
    {
      if |artifacts| >= MAX_ARTIFACTS {
        return None;
      }
      var before, frozen := Tables(), when;
      var a := |artifacts|;
      artifacts := artifacts + [Artifact(statement, source, setting, Pending)];
      var c := InsertClaim(Claim(statement, setting));
      if c.None? {
        Rollback(before, frozen);
        return None;
      }
      var ok := AttachArtifact(c.value, a);
      if !ok {
        Rollback(before, frozen);
        return None;
      }
      id := Some(a);
    }

    /** freeze_context after selected_bundle, in the same transaction. */
    method FreezeContext(z: Sizes, a: nat, request: seq<nat>) returns (r: Result<Bundle, Problem>)
      requires a < |artifacts| && a in claimOf && a !in contexts
      modifies this`contexts, this`when
      ensures View() == Freeze(old(View()), z, a, request)
      ensures r == Select(old(Tables()), z, claimOf[a], artifacts[a].source, request)
    {
      r := SelectBundle(Tables(), z, claimOf[a], artifacts[a].source, request);
      if r.Ok? {
        when := when[a := |contexts|];
        contexts := contexts[a := r.value];
      }
    }

    /** propose_group_artifact with prerequisite proofs */
    method ProposeArtifact(z: Sizes, statement: string, source: string, setting: Setting, request: seq<nat>)
      returns (id: Option<nat>)
      requires |artifacts| !in contexts
      modifies this
      ensures View() == Propose(old(View()), z, statement, source, setting, request)
      ensures id.Some? ==> id.value in contexts && id.value == |old(artifacts)|
    {
      var before, frozen := Tables(), when;
      id := InsertArtifact(statement, source, setting);
      if id.None? {
        return;
      }
      Linked(before, statement, source, setting);
      var r := FreezeContext(z, id.value, request);
      if r.Err? {
        Rollback(before, frozen);
        id := None;
      }
    }

    /** ensure_artifact_context */
    method EnsureContext(z: Sizes, a: nat, token: Binding) returns (r: Result<Bundle, Refusal>)
      requires token.identity.Some?
      modifies this
      ensures (View(), r) == Ensure(old(View()), z, a, token)
    {
      if a >= |artifacts| {
        return Err(NoArtifact);
      }
      if a in contexts {
        if !SameSource(contexts[a], artifacts[a]) {
          return Err(EditedFrozenProof);
        }
        return Ok(Under(contexts[a], token));
      }
      if a !in claimOf {
        return Err(Historical);
      }
      var b := FreezeContext(z, a, []);
      r := if b.Ok? then Ok(Under(b.value, token)) else Err(NotSelected(b.error));
    }

    /** bind_group_artifact_verifier */
    method BindVerifier(identity: Option<string>) returns (token: Binding)
      modifies this`binding, this`artifacts
      ensures View() == old(View()).(w := Bind(old(Tables()), identity))
      ensures token == binding && binding.identity == identity
    {
      if binding.identity != identity {
        binding := Binding(identity, binding.revision + 1);
        artifacts := Void(artifacts, identity);
      }
      token := binding;
    }

    /** checked_group_artifact; owned is the answer of owns_check. */
    method Checked(a: nat, bundle: Option<Bundle>, owned: bool, token: Binding, passed: bool) returns (accepted: bool)
      modifies this`artifacts
      ensures View() == old(View()).(w := Commit(old(Tables()), a, bundle, owned, token, passed))
      ensures accepted <==> Commit(old(Tables()), a, bundle, owned, token, passed) != old(Tables())
    {
      if a >= |artifacts| || (passed && (token.identity.None? || token.identity.value == "")) {
        return false;
      }
      var current := true;
      if bundle.Some? {
        var b := bundle.value;
        current := owned && binding == Binding(Some(b.identity), b.revision) && SameInputs(Tables(), a, b);
      }
      if current && artifacts[a].standing.Pending? && binding == token {
        artifacts := artifacts[a := artifacts[a].(standing := if passed then Verified(token.identity.value) else Refused)];
        return true;
      }
      accepted := false;
    }
  }

  lemma {:induction false} PlaceOfLast(claims: seq<Claim>, claim: Claim)
    requires claim !in claims
    ensures PlaceOf(claims + [claim], claim) == |claims|
  {
    if claims != [] {
      assert (claims + [claim])[1..] == claims[1..] + [claim];
      PlaceOfLast(claims[1..], claim);
    }
  }

  /** A successful insertion links the artifact. */
  lemma Linked(w: World, statement: string, source: string, setting: Setting)
    requires Insert(w, statement, source, setting).Some?
    ensures var d := Insert(w, statement, source, setting).value;
            |d.artifacts| == |w.artifacts| + 1 && |w.artifacts| in d.claimOf && d.contexts == w.contexts
  {
  }
}

/**
 What each transaction on claims, artifacts and frozen bundles does, row by row.
 */
module LedgerRules {
  import opened Basics
  import opened Selection
  import opened Bundles
  import opened Ledger
  import opened LedgerHistory

  // ------------------------------------------------------------- publication

  /** A claim is published once: an equal one is found again, and a new one is added while there is room. */
  lemma PublishRule(w: World, claim: Claim)
    ensures match Publish(w, claim)
            case None => claim !in w.claims && |w.claims| >= 64
            case Some(d) =>
              && (claim in w.claims ==> d == w)
              && (claim !in w.claims ==> |w.claims| < 64 && d == w.(claims := w.claims + [claim]))
    ensures PlaceOf(w.claims, claim) < |w.claims| <==> claim in w.claims
    ensures claim in w.claims ==> w.claims[PlaceOf(w.claims, claim)] == claim
  {
  }

  ghost predicate Tidy(w: World) {
    Distinct(w.claims) && |w.claims| <= 64 && |w.artifacts| <= 64
  }

  lemma PublishTidy(w: World, claim: Claim)
    requires Tidy(w) && Publish(w, claim).Some?
    ensures Tidy(Publish(w, claim).value)
  {
    if claim !in w.claims {
      forall i, j | 0 <= i < j < |w.claims| + 1 ensures (w.claims + [claim])[i] != (w.claims + [claim])[j] {
      }
    }
  }

  lemma InsertTidy(w: World, statement: string, source: string, setting: Setting)
    requires Tidy(w) && Insert(w, statement, source, setting).Some?
    ensures Tidy(Insert(w, statement, source, setting).value)
  {
    PublishTidy(w, Claim(statement, setting));
  }

  /** Neither claims nor artifacts are added. */
  lemma SameTidy(w: World, d: World)
    requires Tidy(w) && d.claims == w.claims && |d.artifacts| == |w.artifacts|
    ensures Tidy(d)
  {
  }

  lemma FreezeTables(l: Ledger, z: Sizes, a: nat, request: seq<nat>)
    ensures var d := Freeze(l, z, a, request); d.w == l.w.(contexts := d.w.contexts)
  {
  }

  lemma ProposeTidy(l: Ledger, z: Sizes, statement: string, source: string, setting: Setting, request: seq<nat>)
    requires Tidy(l.w)
    ensures Tidy(Propose(l, z, statement, source, setting, request).w)
  {
    var o := Insert(l.w, statement, source, setting);
    if o.Some? {
      InsertTidy(l.w, statement, source, setting);
      FreezeTables(Ledger(o.value, l.when), z, |l.w.artifacts|, request);
    }
  }

  lemma StepTidy(l: Ledger, z: Sizes, e: Event)
    requires Tidy(l.w)
    ensures Tidy(Step(l, z, e).w)
  {
    match e
    case EPublish(claim) =>
      PublishStep(l, z, claim);
      if Publish(l.w, claim).Some? {
        PublishTidy(l.w, claim);
      }
    case EInsert(statement, source, setting) =>
      InsertStep(l, z, statement, source, setting);
      if Insert(l.w, statement, source, setting).Some? {
        InsertTidy(l.w, statement, source, setting);
      }
    case EPropose(statement, source, setting, request) =>
      ProposeStep(l, z, statement, source, setting, request);
      ProposeTidy(l, z, statement, source, setting, request);
    case EFreeze(a, request) => FreezeTables(l, z, a, request);
    case EEnsure(a, token) => FreezeTables(l, z, a, []);
    case _ => SameTidy(l.w, Step(l, z, e).w);
  }

  /** In every history each claim is published once, and the tables stay within their limits. */
  lemma {:induction false} AlwaysTidy(z: Sizes, events: seq<Event>)
    ensures Tidy(After(z, events).w)
  {
    if events != [] {
      AlwaysTidy(z, events[..|events| - 1]);
      StepTidy(After(z, events[..|events| - 1]), z, events[|events| - 1]);
    }
  }

  /** An inserted artifact is pending, and linked to the one claim with its statement and setting, which
      is published with it if it was not known; it is refused only for want of room. */
  lemma InsertRule(z: Sizes, events: seq<Event>, statement: string, source: string, setting: Setting)
    ensures var w := After(z, events).w; var claim := Claim(statement, setting); var n := |w.artifacts|;
            match Insert(w, statement, source, setting)
            case None => n >= 64 || (claim !in w.claims && |w.claims| >= 64)
            case Some(d) =>
              && d == w.(claims := d.claims, artifacts := w.artifacts + [Artifact(statement, source, setting, Pending)], claimOf := d.claimOf)
              && d.claims == (if claim in w.claims then w.claims else w.claims + [claim])
              && n in d.claimOf && d.claimOf == w.claimOf[n := d.claimOf[n]]
              && d.claimOf[n] < |d.claims| && d.claims[d.claimOf[n]] == claim
              && (forall c | 0 <= c < |d.claims| && d.claims[c] == claim :: c == d.claimOf[n])
  {
    var l := After(z, events);
    AlwaysInv(z, events);
    AlwaysTidy(z, events);
    if Insert(l.w, statement, source, setting).Some? {
      InsertShape(l.w, statement, source, setting);
      InsertTidy(l.w, statement, source, setting);
    }
  }

  /** An artifact may be linked to a claim that says exactly what it proves, and only to one. */
  lemma AttachRule(w: World, c: nat, a: nat)
    ensures Attach(w, c, a).Some? <==>
              && c < |w.claims| && a < |w.artifacts|
              && w.artifacts[a].statement == w.claims[c].statement && w.artifacts[a].setting == w.claims[c].setting
              && (a in w.claimOf ==> w.claimOf[a] == c)
    ensures Attach(w, c, a).Some? ==>
              Attach(w, c, a).value.claimOf == w.claimOf[a := c] && Attach(w, c, a).value == w.(claimOf := w.claimOf[a := c])
  {
  }

  // ---------------------------------------------------- binding and verdicts

  /** A verifier with the identity in force is nothing new; any other identity raises the revision and
      makes pending what another identity verified. */
  lemma BindRule(w: World, identity: Option<string>)
    ensures var d := Bind(w, identity);
            && (identity == w.binding.identity ==> d == w)
            && (identity != w.binding.identity ==>
                  && d.binding.identity == identity && d.binding.revision == w.binding.revision + 1
                  && d == w.(binding := d.binding, artifacts := d.artifacts) && |d.artifacts| == |w.artifacts|
                  && (forall a | 0 <= a < |w.artifacts| ::
                        d.artifacts[a] == if w.artifacts[a].standing.Verified? && Some(w.artifacts[a].standing.identity) != identity
                                          then w.artifacts[a].(standing := Pending) else w.artifacts[a]))
  {
  }

  /** A pending artifact's row is written under the binding in force. With a checked bundle, the check must
      own the artifact and have checked the frozen bundle of its very source under that verifier; without
      one, only a rejection counts. */
  lemma CommitRule(w: World, a: nat, bundle: Option<Bundle>, owned: bool, token: Binding, passed: bool)
    ensures var d := Commit(w, a, bundle, owned, token, passed);
            var counts :=
              && a < |w.artifacts| && w.artifacts[a].standing.Pending? && w.binding == token
              && (passed ==> token.identity.Some? && token.identity.value != "")
              && (bundle.Some? ==>
                    var b := bundle.value;
                    && owned && w.binding == Binding(Some(b.identity), b.revision) && a in w.contexts
                    && b.statement == w.artifacts[a].statement && b.source == w.artifacts[a].source && b.setting == w.artifacts[a].setting
                    && w.contexts[a].(identity := b.identity, revision := b.revision) == b);
            if counts
            then d == w.(artifacts := w.artifacts[a := w.artifacts[a].(
                           standing := if passed then Verified(token.identity.value) else Refused)])
            else d == w
  {
  }

  lemma ReleaseRule(w: World, a: nat)
    ensures Release(w, a) == if a < |w.artifacts| && w.artifacts[a].standing.Pending?
                             then w.(artifacts := w.artifacts[a := w.artifacts[a].(standing := Refused)]) else w
  {
  }

  // ---------------------------------------------------------------- freezing

  /** A bundle is frozen once, for a linked artifact and its own claim and source, and only if the
      selection succeeds; freezing touches nothing else. */
  lemma FreezeRule(l: Ledger, z: Sizes, a: nat, request: seq<nat>)
    ensures var d := Freeze(l, z, a, request);
            if a < |l.w.artifacts| && a in l.w.claimOf && a !in l.w.contexts
               && Select(l.w, z, l.w.claimOf[a], l.w.artifacts[a].source, request).Ok?
            then d.w == l.w.(contexts := l.w.contexts[a := Select(l.w, z, l.w.claimOf[a], l.w.artifacts[a].source, request).value])
                 && d.when == l.when[a := |l.w.contexts|]
            else d == l
  {
  }

  /** The bundle that an artifact is checked with: its frozen one, or one without lemmas that is frozen
      now; in both cases under the given verifier. In every history it is refused only for an artifact
      that does not exist, or whose bundle without lemmas cannot be selected. */
  lemma EnsureRule(z: Sizes, events: seq<Event>, a: nat, token: Binding)
    requires token.identity.Some?
    ensures var l := After(z, events); var (d, r) := Ensure(l, z, a, token);
            if a >= |l.w.artifacts| then d == l && r == Err(NoArtifact)
            else if a in l.w.contexts then
              d == l && r == Ok(l.w.contexts[a].(identity := token.identity.value, revision := token.revision))
            else
              a in l.w.claimOf &&
              match Select(l.w, z, l.w.claimOf[a], l.w.artifacts[a].source, [])
              case Err(problem) => d == l && r == Err(NotSelected(problem))
              case Ok(b) =>
                && d.w == l.w.(contexts := l.w.contexts[a := b])
                && r == Ok(b.(identity := token.identity.value, revision := token.revision))
  {
    var l := After(z, events);
    AlwaysInv(z, events);
    if a < |l.w.artifacts| {
      assert Owned(l.w, a);
      if a in l.w.contexts {
        assert FrozenOk(l, a);
      } else {
        FreezeRule(l, z, a, []);
      }
    }
  }

  /** A proposal inserts and freezes together, or changes nothing. */
  lemma ProposeRule(z: Sizes, events: seq<Event>, statement: string, source: string, setting: Setting, request: seq<nat>)
    ensures var l := After(z, events); var d := Propose(l, z, statement, source, setting, request); var n := |l.w.artifacts|;
            match Insert(l.w, statement, source, setting)
            case None => d == l
            case Some(w) =>
              && n in w.claimOf
              && match Select(w, z, w.claimOf[n], source, request)
                 case Err(_) => d == l
                 case Ok(b) => d.w == w.(contexts := w.contexts[n := b])
  {
    var l := After(z, events);
    AlwaysInv(z, events);
    if Insert(l.w, statement, source, setting).Some? {
      var w := Insert(l.w, statement, source, setting).value;
      InsertShape(l.w, statement, source, setting);
      NotFrozenYet(l);
      FreezeRule(Ledger(w, l.when), z, |l.w.artifacts|, request);
    }
  }

  /** A group's limits are given once, when its loop starts, and no transaction changes them afterwards. */
  lemma LimitsOnce(l: Ledger, z: Sizes, e: Event)
    ensures Step(l, z, e).w.limits == if e.EStart? && l.w.limits.None? then Some(e.limits) else l.w.limits
  {
    if e.EPropose? {
      var o := Insert(l.w, e.statement, e.source, e.setting);
      if o.Some? {
        FreezeLimits(Ledger(o.value, l.when), z, |l.w.artifacts|, e.request);
      }
    } else if e.EFreeze? {
      FreezeLimits(l, z, e.artifact, e.request);
    } else if e.EEnsure? {
      FreezeLimits(l, z, e.artifact, []);
    }
  }

  lemma FreezeLimits(l: Ledger, z: Sizes, a: nat, request: seq<nat>)
    ensures Freeze(l, z, a, request).w.limits == l.w.limits
  {
  }

  /** Without a bound verifier nothing is frozen for a check. */
  lemma EnsureTakesEffect(l: Ledger, z: Sizes, a: nat, token: Binding)
    ensures Step(l, z, EEnsure(a, token)) == if token.identity.Some? then Ensure(l, z, a, token).0 else l
  {
  }

  lemma NotFrozenYet(l: Ledger)
    requires Inv(l)
    ensures |l.w.artifacts| !in l.w.contexts
  {
    forall a | a in l.w.contexts ensures a < |l.w.artifacts| {
      assert FrozenOk(l, a);
    }
  }
}

/** Which sources count at an instant and which of them the resolver credits (internal/domains/entitlement.go). */
module DomainSources {
  import opened Foundations
  import opened Sorting
  import opened DomainEntitlement

  /** Each way a source can be refused; a downgrade's grace is seven days to the microsecond. */
  lemma InvalidExactly(s: Source)
    ensures !Valid(s) <==>
      || s.workspace == 0 || s.limit == 0 || s.startsAt == 0 || s.status.Requested?
      || (s.expiresAt.Some? && s.expiresAt.value <= s.startsAt)
      || (s.degradedAt.Some? && (s.kind.ManualApproval? || s.graceUntil.None?))
      || (s.degradedAt.Some? && s.graceUntil.Some? && s.graceUntil.value - s.degradedAt.value != 7 * 86_400_000_000)
      || (s.degradedAt.None? && s.graceUntil.Some?)
      || (s.kind.ManualApproval? && (s.expiresAt.None? || s.grantedBy == 0 || s.ticket == 0 || s.reason.Blank?))
      || ((s.status.Suspended? || s.status.Revoked?) && (s.reason.Blank? || s.category == 0))
  {
  }

  /**
   * When a valid source counts: an active one from its start up to its end, and once degraded with its full
   * authority up to the downgrade and as a grace for seven days from it, whatever its end; a suspended or revoked
   * one holds from its start up to its end; an expired one never.
   */
  lemma SourceWindow(s: Source, now: Micros)
    requires Valid(s)
    ensures ClassOf(now, s).Regular? <==>
      && s.status.Active? && s.startsAt <= now && (s.expiresAt.Some? && (s.degradedAt.None? || now < s.degradedAt.value)
            ==> now < s.expiresAt.value)
      && (s.degradedAt.Some? ==> now < s.degradedAt.value)
    ensures ClassOf(now, s).Grace? <==>
      && s.status.Active? && s.startsAt <= now
      && s.degradedAt.Some? && s.degradedAt.value <= now < s.degradedAt.value + 604_800_000_000
    ensures SecurityHold(now, s) <==>
      && (s.status.Suspended? || s.status.Revoked?) && s.startsAt <= now
      && (s.expiresAt.Some? ==> now < s.expiresAt.value)
  {
  }

  /** The credited source has the largest limit of its class; among those a plan comes first, then the smaller key. */
  ghost predicate Credited(now: Micros, ss: seq<Source>, c: Class, s: Source) {
    && s in ss && ClassOf(now, s) == c
    && forall o :: o in ss && ClassOf(now, o) == c ==>
         && o.limit <= s.limit
         && (o.limit == s.limit && o.kind.Plan? ==> s.kind.Plan?)
         && (o.limit == s.limit && o.kind == s.kind ==> KeyRank(s.key) <= KeyRank(o.key))
  }

  lemma PreferredOrder()
    ensures StrictWeakOrder(Preferred)
  {
  }

  lemma HighestIsCredited(now: Micros, ss: seq<Source>, c: Class)
    requires OfClass(now, ss, c) != []
    ensures Credited(now, ss, c, Highest(OfClass(now, ss, c)))
  {
    var members := OfClass(now, ss, c);
    OfClassMembers(now, ss, c);
    PreferredOrder();
    SortCorrect(Preferred, members);
    var sorted := Sort(Preferred, members);
    assert sorted[0] in members;
    forall o | o in ss && ClassOf(now, o) == c
      ensures !Preferred(o, sorted[0])
    {
      assert o in members;
      var i :| 0 <= i < |sorted| && sorted[i] == o;
    }
  }

  /** The fields an answer takes from the source it credits. */
  ghost predicate Credits(r: Resolved, s: Source, standing: Reason) {
    && r.kind == Some(s.kind) && r.limit == s.limit && r.startsAt == Some(s.startsAt) && r.expiresAt == s.expiresAt
    && r.grantedBy == s.grantedBy && r.ticket == s.ticket
      && r.reason == (if s.reason.Blank? then standing else s.reason)
  }

  /**
   * What an answer reports: the source it rests on with its dates, granter and reason, and all the sources of the
   * same class; without any, the open request if there is one.
   */
  lemma AnswerReports(now: Micros, ss: seq<Source>, request: Option<nat>)
    requires Resolve(now, ss, request).Success?
    ensures var r := Resolve(now, ss, request).value;
            && (r.mutationAllowed ==>
                  && (forall s :: s in r.validSources <==> s in ss && ClassOf(now, s).Regular?)
                  && exists s :: Credited(now, ss, Regular, s)
                                 && Credits(r, s, if s.kind.Plan? then ActivePlan else ActiveManual))
            && (r.gracePeriod ==>
                  && (forall s :: s in r.validSources <==> s in ss && ClassOf(now, s).Grace?)
                  && exists s :: Credited(now, ss, Grace, s) && Credits(r, s, DowngradeGrace)
                                 && r.graceUntil == s.graceUntil)
            && (!r.routingAllowed && Held(now, ss) ==>
                  exists s :: s in ss && SecurityHold(now, s) && r.validSources == [s] && r.status == s.status
                              && Credits(r, s, Blank))
            && (!r.routingAllowed && !Held(now, ss) ==>
                  && r.kind.None? && r.validSources == [] && r.limit == 0
                  && r.ticket == (if request.Some? then request.value else 0)
                  && r.reason == (if request.Some? && request.value != 0 then RequestPending else NotEntitled)
                  && r.status == (if request.Some? && request.value != 0 then Requested else Expired))
  {
    hide Highest, Credited, StrongestHold, OfClass, Preferred;
    ResolveMeaning(now, ss, request);
    StrongestHoldMeaning(now, ss);
    OfClassMembers(now, ss, Regular);
    OfClassMembers(now, ss, Grace);
    if OfClass(now, ss, Regular) != [] { HighestIsCredited(now, ss, Regular); }
    if OfClass(now, ss, Grace) != [] { HighestIsCredited(now, ss, Grace); }
  }

  /** The hold that decides is the first of the strongest: a revocation before a suspension. */
  lemma {:induction false} StrongestFirst(now: Micros, ss: seq<Source>)
    requires StrongestHold(now, ss).Some?
    ensures exists i :: 0 <= i < |ss| && FirstStrongest(now, ss, i) && StrongestHold(now, ss) == Some(ss[i])
  {
    var n := |ss| - 1;
    assert ss == ss[..n] + [ss[n]];
    if StrongestHold(now, ss[..n]).Some? {
      StrongestFirst(now, ss[..n]);
      var i :| 0 <= i < n && FirstStrongest(now, ss[..n], i) && StrongestHold(now, ss[..n]) == Some(ss[..n][i]);
      assert forall j :: 0 <= j < n ==> ss[..n][j] == ss[j];
      if SecurityHold(now, ss[n]) && ss[n].status.Revoked? && !ss[i].status.Revoked? {
        assert FirstStrongest(now, ss, n);
      } else {
        assert FirstStrongest(now, ss, i);
      }
    } else {
      StrongestHoldMeaning(now, ss[..n]);
      assert forall j :: 0 <= j < n ==> ss[j] in ss[..n];
      assert FirstStrongest(now, ss, n);
    }
  }

  ghost predicate FirstStrongest(now: Micros, ss: seq<Source>, i: nat)
    requires i < |ss|
  {
    && SecurityHold(now, ss[i])
    && (forall j :: 0 <= j < i && SecurityHold(now, ss[j]) ==> ss[i].status.Revoked? && !ss[j].status.Revoked?)
    && (forall j :: i < j < |ss| && SecurityHold(now, ss[j]) ==> (ss[j].status.Revoked? ==> ss[i].status.Revoked?))
  }
}

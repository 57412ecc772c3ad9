/**
  Which particle streams a merge sends. The client plans from the particles it has and the
  mask, the server from the mask alone; the session only works if both plans are the same.
*/
module MergePlan {
  import opened Prelude
  import opened ControlText
  import opened Particles

  /** The cores that can be dealt with: no pair is entirely missing, and every core that is
      not declared missing is there. */
  ghost predicate Mergeable(present: set<Kind>, missing: set<Kind>) {
    && !({EC, OC} <= missing)
    && !({EN, ON} <= missing)
    && (forall k | k in CORES :: k in missing || k in present)
  }

  /** Every core not missing, and the parity of each pair that lacks a core. */
  function SendSet(present: set<Kind>, missing: set<Kind>): set<Kind> {
    ({EC, OC, EN, ON} - missing)
    + (if CP in present && {EC, OC} * missing != {} then {CP} else {})
    + (if NP in present && {EN, ON} * missing != {} then {NP} else {})
  }

  /** Fills the plan key by key, cores first. */
  method FillPlan(present: map<Kind, bool>, missing: map<Kind, bool>) returns (send: map<Kind, bool>)
    ensures forall k | k in CORES :: Flag(send, k) <==> Flag(present, k) && !Flag(missing, k)
    ensures Flag(send, CP) <==> (Flag(missing, EC) || Flag(missing, OC)) && Flag(present, CP)
                                && (Flag(send, EC) || Flag(send, OC))
    ensures Flag(send, NP) <==> (Flag(missing, EN) || Flag(missing, ON)) && Flag(present, NP)
                                && (Flag(send, EN) || Flag(send, ON))
  {
    send := map[];
    for i := 0 to |CORES|
      invariant forall k :: k in send <==> k in CORES[..i]
      invariant forall k :: k in send ==> send[k] == (Flag(present, k) && !Flag(missing, k))
    {
      assert CORES[..i + 1] == CORES[..i] + [CORES[i]];
      send := send[CORES[i] := Flag(present, CORES[i]) && !Flag(missing, CORES[i])];
    }
    assert CORES[..|CORES|] == CORES;
    assert CP !in CORES && NP !in CORES && EC in CORES && OC in CORES && EN in CORES && ON in CORES;

    var cypherCoreMissing := Flag(missing, EC) || Flag(missing, OC);
    var cypherAnyCore := Flag(send, EC) || Flag(send, OC);
    send := send[CP := cypherCoreMissing && Flag(present, CP) && cypherAnyCore];

    var noiseCoreMissing := Flag(missing, EN) || Flag(missing, ON);
    var noiseAnyCore := Flag(send, EN) || Flag(send, ON);
    send := send[NP := noiseCoreMissing && Flag(present, NP) && noiseAnyCore];
  }

  method MergeSendPlanFrom(present: map<Kind, bool>, missing: map<Kind, bool>)
    returns (plan: Option<map<Kind, bool>>)
    ensures plan.Some? <==> Mergeable(Flagged(present), Flagged(missing))
    ensures plan.Some? ==> Flagged(plan.value) == SendSet(Flagged(present), Flagged(missing))
  {
    var send := FillPlan(present, missing);
    if Mergeable(Flagged(present), Flagged(missing)) {
      PlanIsValid(Flagged(send), Flagged(present), Flagged(missing));
    }
    var fine := ValidateMergeSendPlan(send, missing, present);
    if !fine {
      return None;
    }
    plan := Some(send);
  }

  /** A plan computed from the particles at hand passes its own validation whenever the
      particles are mergeable, and is then the send set. */
  lemma PlanIsValid(send: set<Kind>, present: set<Kind>, missing: set<Kind>)
    requires forall k | k in CORES :: k in send <==> k in present && k !in missing
    requires CP in send <==> (EC in missing || OC in missing) && CP in present && (EC in send || OC in send)
    requires NP in send <==> (EN in missing || ON in missing) && NP in present && (EN in send || ON in send)
    requires Mergeable(present, missing)
    ensures send == SendSet(present, missing)
    ensures forall k | k in CORES :: k in send <==> k !in missing
    ensures (EC in missing) != (OC in missing) && CP in present ==> CP in send
    ensures (EN in missing) != (ON in missing) && NP in present ==> NP in send
  {
    assert EC in CORES && OC in CORES && EN in CORES && ON in CORES;
    assert CP in send <==> CP in present && {EC, OC} * missing != {} by {
      assert EC in {EC, OC} * missing <==> EC in missing;
      assert OC in {EC, OC} * missing <==> OC in missing;
    }
    assert NP in send <==> NP in present && {EN, ON} * missing != {} by {
      assert EN in {EN, ON} * missing <==> EN in missing;
      assert ON in {EN, ON} * missing <==> ON in missing;
    }
    forall k ensures k in send <==> k in SendSet(present, missing) {
      match k case EC => case OC => case EN => case ON => case CP => case NP =>
    }
  }

  /** The checks in source order; the last four can only fail for plans built elsewhere. */
  method ValidateMergeSendPlan(send: map<Kind, bool>, missing: map<Kind, bool>, present: map<Kind, bool>)
    returns (fine: bool)
    ensures fine <==>
              && Mergeable(Flagged(present), Flagged(missing))
              && (forall k | k in CORES :: Flag(send, k) <==> !Flag(missing, k))
              && (Flag(send, CP) ==> Flag(send, EC) || Flag(send, OC))
              && (Flag(send, NP) ==> Flag(send, EN) || Flag(send, ON))
              && (Flag(missing, EC) != Flag(missing, OC) && Flag(present, CP) ==> Flag(send, CP))
              && (Flag(missing, EN) != Flag(missing, ON) && Flag(present, NP) ==> Flag(send, NP))
  {
    if Flag(missing, EC) && Flag(missing, OC) {
      return false;
    }
    if Flag(missing, EN) && Flag(missing, ON) {
      return false;
    }
    if Flag(send, CP) && !Flag(send, EC) && !Flag(send, OC) {
      return false;
    }
    if Flag(send, NP) && !Flag(send, EN) && !Flag(send, ON) {
      return false;
    }
    for i := 0 to |CORES|
      invariant forall k | k in CORES[..i] ::
                  (Flag(send, k) <==> !Flag(missing, k)) && (Flag(missing, k) || Flag(present, k))
    {
      var kind := CORES[i];
      assert CORES[..i + 1] == CORES[..i] + [kind] && kind in CORES;
      if Flag(missing, kind) {
        if Flag(send, kind) {
          return false;
        }
      } else {
        if !Flag(present, kind) {
          return false;
        }
        if !Flag(send, kind) {
          return false;
        }
      }
    }
    assert CORES[..|CORES|] == CORES;
    if Flag(missing, EC) != Flag(missing, OC) {
      if Flag(present, CP) && !Flag(send, CP) {
        return false;
      }
    }
    if Flag(missing, EN) != Flag(missing, ON) {
      if Flag(present, NP) && !Flag(send, NP) {
        return false;
      }
    }
    fine := true;
  }

  method MergeSendPlanFromCore(core: map<Kind, seq<Byte>>, missing: map<Kind, bool>)
    returns (plan: Option<map<Kind, bool>>)
    ensures plan.Some? <==> Mergeable(core.Keys, Flagged(missing))
    ensures plan.Some? ==> Flagged(plan.value) == SendSet(core.Keys, Flagged(missing))
  {
    var present: map<Kind, bool> := map[];
    for i := 0 to |ALL_KINDS|
      invariant forall k :: k in present <==> k in ALL_KINDS[..i]
      invariant forall k :: k in present ==> present[k] == (k in core)
    {
      assert ALL_KINDS[..i + 1] == ALL_KINDS[..i] + [ALL_KINDS[i]];
      present := present[ALL_KINDS[i] := ALL_KINDS[i] in core];
    }
    assert ALL_KINDS[..|ALL_KINDS|] == ALL_KINDS;
    EveryKind();
    assert Flagged(present) == core.Keys;
    plan := MergeSendPlanFrom(present, missing);
  }

  lemma EveryKind()
    ensures forall k: Kind :: k in ALL_KINDS
  {
    forall k: Kind ensures k in ALL_KINDS {
      match k case EC => case OC => case EN => case ON => case CP => case NP =>
    }
  }

  // ---- the server's side ----

  const EVERYTHING: set<Kind> := {EC, OC, EN, ON, CP, NP}

  /** The streams the server opens a footer reader on. */
  function OpenSet(mask: Mask): set<Kind> {
    SendSet(EVERYTHING, Missing(mask))
  }

  method BuildMergeSources(mask: Mask) returns (open: Option<set<Kind>>)
    ensures open.Some? <==> ProfileValid(mask)
    ensures open.Some? ==> open.value == OpenSet(mask)
  {
    var missing := MissingMap(mask);
    var present := map[EC := true, OC := true, EN := true, ON := true, CP := true, NP := true];
    assert Flagged(present) == EVERYTHING;
    var plan := MergeSendPlanFrom(present, missing);
    ValidMeansMergeable(mask);
    if plan.None? {
      return None;
    }
    open := Some(Flagged(plan.value));
  }

  /** The server's early check of the profile line. */
  predicate ProfileValid(mask: Mask) {
    !(mask & MISSING_EC != 0 && mask & MISSING_OC != 0) && !(mask & MISSING_EN != 0 && mask & MISSING_ON != 0)
  }

  lemma ValidMeansMergeable(mask: Mask)
    ensures ProfileValid(mask) <==> Mergeable(EVERYTHING, Missing(mask))
  {
    assert EC in Missing(mask) <==> mask & MISSING_EC != 0;
    assert OC in Missing(mask) <==> mask & MISSING_OC != 0;
    assert EN in Missing(mask) <==> mask & MISSING_EN != 0;
    assert ON in Missing(mask) <==> mask & MISSING_ON != 0;
  }

  // ---- agreement ----

  /** Each pair with a missing core has its parity at hand. */
  ghost predicate ParityCovers(present: set<Kind>, missing: set<Kind>) {
    && ({EC, OC} * missing != {} ==> CP in present)
    && ({EN, ON} * missing != {} ==> NP in present)
  }

  /** When the client's plan succeeds so does the server's; the client never sends a stream
      the server ignores, always sends the cores the server opens, and both sets are equal
      exactly when every pair with a missing core has its parity. */
  lemma PlansAgree(present: set<Kind>, mask: Mask)
    requires Mergeable(present, Missing(mask))
    ensures ProfileValid(mask)
    ensures SendSet(present, Missing(mask)) <= OpenSet(mask)
    ensures SendSet(present, Missing(mask)) * {EC, OC, EN, ON} == OpenSet(mask) * {EC, OC, EN, ON}
    ensures SendSet(present, Missing(mask)) == OpenSet(mask) <==> ParityCovers(present, Missing(mask))
  {
    ValidMeansMergeable(mask);
    var missing := Missing(mask);
    var client, server := SendSet(present, missing), OpenSet(mask);
    assert CP in server <==> {EC, OC} * missing != {};
    assert NP in server <==> {EN, ON} * missing != {};
    assert CP in client <==> {EC, OC} * missing != {} && CP in present;
    assert NP in client <==> {EN, ON} * missing != {} && NP in present;
    assert forall k | k in {EC, OC, EN, ON} :: k in client <==> k in server;
  }

  /** Planning from the disk with the disk's own profile: whenever the scan and the plan
      succeed, the server opens exactly the streams the client sends. */
  method PlanFromDisk(disk: Disk) returns (profile: Option<Mask>, plan: Option<map<Kind, bool>>)
    requires disk.Total()
    ensures plan.Some? ==> profile.Some? && Flagged(plan.value) == OpenSet(profile.value)
    ensures profile.Some? <==> disk.Scannable()
    ensures plan.Some? <==> disk.Scannable()
                            && !(EC !in disk.Present() && OC !in disk.Present())
                            && !(EN !in disk.Present() && ON !in disk.Present())
  {
    profile, plan := None, None;
    var inv := ScanInventory(disk);
    if inv.None? {
      return;
    }
    var mask := ProfileFromInventory(inv.value);
    profile := Some(mask);
    var missing := MissingMap(mask);
    var present := disk.Present();
    assert Missing(mask) == {EC, OC, EN, ON} - present by {
      assert forall k :: Flag(inv.value, k) <==> k in Flagged(inv.value);
    }
    plan := MergeSendPlanFrom(inv.value, missing);
    if plan.Some? {
      PlansAgree(present, mask);
      assert ParityCovers(present, Missing(mask));
    }
  }

  /** An object written in full can be merged from what is left exactly when at most one of the
      three storages is lost, whichever it is. */
  lemma AnyOneStorage(disk: Disk, gone: set<nat>)
    requires disk.Total() && gone <= {0, 1, 2} && Lacks(disk, gone)
    ensures disk.Scannable() && Mergeable(disk.Present(), {EC, OC, EN, ON} - disk.Present())
            <==> gone == {} || gone == {0} || gone == {1} || gone == {2}
  {
    EveryKind();
    forall k: Kind ensures k in disk.Present() <==> StorageOf(k) !in gone {
      assert k in ALL_KINDS;
    }
    assert disk.StoragesFine() <==>
        !(0 in gone && 1 in gone) && !(0 in gone && 2 in gone) && !(1 in gone && 2 in gone) by {
      assert forall i :: 0 <= i < 3 ==> (disk.storages[i].There? <==> i !in gone);
    }
    FewStorages(gone);
  }

  lemma FewStorages(gone: set<nat>)
    requires gone <= {0, 1, 2}
    ensures !(0 in gone && 1 in gone) && !(0 in gone && 2 in gone) && !(1 in gone && 2 in gone)
            <==> gone == {} || gone == {0} || gone == {1} || gone == {2}
  {
  }

  /** An explicit skip list can break the agreement: with all cores on disk, no parity and
      `ec` skipped, the client's plan succeeds but the server waits for a parity stream. */
  lemma SkippedCoreWithoutParity()
    ensures var present, mask := {EC, OC, EN, ON}, MISSING_EC;
            Mergeable(present, Missing(mask)) && SendSet(present, Missing(mask)) != OpenSet(mask)
  {
    var present, mask := {EC, OC, EN, ON}, MISSING_EC;
    assert Missing(mask) == {EC};
    PlansAgree(present, mask);
    assert EC in {EC, OC} * Missing(mask);
  }
}

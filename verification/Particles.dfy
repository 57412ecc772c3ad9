/** Particle kinds, missing-core masks, the on-disk inventory and the trailer's map folds. */
module Particles {
  import opened Prelude
  import opened ControlText

  datatype Kind = EC | OC | EN | ON | CP | NP

  const CORES: seq<Kind> := [EC, OC, EN, ON]
  const ALL_KINDS: seq<Kind> := [EC, OC, EN, ON, CP, NP]

  ghost predicate IsCore(k: Kind) {
    k in CORES
  }

  // ---- masks ----

  function Bit(k: Kind): Mask {
    match k
    case EC => MISSING_EC
    case OC => MISSING_OC
    case EN => MISSING_EN
    case ON => MISSING_ON
    case _ => 0
  }

  /** The cores a mask declares missing. */
  function Missing(mask: Mask): set<Kind> {
    set k | k in {EC, OC, EN, ON} && mask & Bit(k) != 0
  }

  method MissingKinds(mask: Mask) returns (out: seq<Kind>)
    ensures (set k | k in out) == Missing(mask)
    ensures (EC in out <==> mask & 1 != 0) && (OC in out <==> mask & 2 != 0)
    ensures (EN in out <==> mask & 4 != 0) && (ON in out <==> mask & 8 != 0)
    ensures forall i, j :: 0 <= i < j < |out| ==> out[i] != out[j]
  {
    out := [];
    if mask & MISSING_EC != 0 {
      out := out + [EC];
    }
    if mask & MISSING_OC != 0 {
      out := out + [OC];
    }
    if mask & MISSING_EN != 0 {
      out := out + [EN];
    }
    if mask & MISSING_ON != 0 {
      out := out + [ON];
    }
  }

  /** Go map lookup of a flag: absent means false. */
  predicate Flag(m: map<Kind, bool>, k: Kind) {
    k in m && m[k]
  }

  function Flagged(m: map<Kind, bool>): (s: set<Kind>)
    ensures forall k :: k in s <==> Flag(m, k)
  {
    set k | k in m && m[k]
  }

  method MissingMap(mask: Mask) returns (m: map<Kind, bool>)
    ensures Flagged(m) == Missing(mask)
  {
    var kinds := MissingKinds(mask);
    m := map[];
    for i := 0 to |kinds|
      invariant forall k :: k in m <==> k in kinds[..i]
      invariant forall k :: k in m ==> m[k]
    {
      m := m[kinds[i] := true];
    }
    assert kinds[..|kinds|] == kinds;
  }

  /** A bit set or left alone moves exactly one core in or out of the missing set. */
  lemma SetBit(mask: Mask, k: Kind)
    requires IsCore(k)
    ensures Missing(mask | Bit(k)) == Missing(mask) + {k}
    ensures mask & 0xF0 == 0 ==> (mask | Bit(k)) & 0xF0 == 0
  {
  }

  lemma NoBits()
    ensures Missing(0) == {}
  {
  }

  /** Known-bit masks and sets of missing cores correspond one to one. */
  lemma MaskIsItsSet(a: Mask, b: Mask)
    requires a & 0xF0 == 0 && b & 0xF0 == 0
    ensures Missing(a) == Missing(b) <==> a == b
  {
    if Missing(a) == Missing(b) {
      forall k | k in {EC, OC, EN, ON} ensures a & Bit(k) != 0 <==> b & Bit(k) != 0 {
        assert k in Missing(a) <==> k in Missing(b);
      }
      assert a & 1 != 0 <==> b & 1 != 0 by { assert Bit(EC) == 1; }
      assert a & 2 != 0 <==> b & 2 != 0 by { assert Bit(OC) == 2; }
      assert a & 4 != 0 <==> b & 4 != 0 by { assert Bit(EN) == 4; }
      assert a & 8 != 0 <==> b & 8 != 0 by { assert Bit(ON) == 8; }
    }
  }

  method ProfileFromCore(core: map<Kind, seq<Byte>>) returns (mask: Mask)
    ensures Missing(mask) == (set k | k in CORES && k !in core)
    ensures mask & 0xF0 == 0
  {
    mask := 0;
    NoBits();
    for i := 0 to |CORES|
      invariant Missing(mask) == (set k | k in CORES[..i] && k !in core)
      invariant mask & 0xF0 == 0
    {
      assert CORES[..i + 1] == CORES[..i] + [CORES[i]];
      if CORES[i] !in core {
        SetBit(mask, CORES[i]);
        mask := mask | Bit(CORES[i]);
      }
    }
    assert CORES[..|CORES|] == CORES;
  }

  // ---- skip lists ----

  function KeyOf(k: Kind): string {
    match k
    case EC => "ec"
    case OC => "oc"
    case EN => "en"
    case ON => "on"
    case CP => "cp"
    case NP => "np"
  }

  method KindFromKey(key: string) returns (k: Option<Kind>)
    ensures k.Some? ==> KeyOf(k.value) == key
    ensures k.None? ==> forall j :: KeyOf(j) != key
    ensures (k == Some(EC) <==> key == "ec") && (k == Some(OC) <==> key == "oc") && (k == Some(EN) <==> key == "en")
    ensures (k == Some(ON) <==> key == "on") && (k == Some(CP) <==> key == "cp") && (k == Some(NP) <==> key == "np")
  {
    KeysDiffer();
    if key == "ec" { return Some(EC); }
    if key == "oc" { return Some(OC); }
    if key == "en" { return Some(EN); }
    if key == "on" { return Some(ON); }
    if key == "cp" { return Some(CP); }
    if key == "np" { return Some(NP); }
    forall j ensures KeyOf(j) != key {
      match j case EC => case OC => case EN => case ON => case CP => case NP =>
    }
    k := None;
  }

  lemma KeysDiffer()
    ensures forall a, b :: KeyOf(a) == KeyOf(b) ==> a == b
  {
    assert forall k :: |KeyOf(k)| == 2;
    assert "ec"[0] == 'e' && "ec"[1] == 'c' && "oc"[0] == 'o' && "oc"[1] == 'c' && "en"[0] == 'e' && "en"[1] == 'n';
    assert "on"[0] == 'o' && "on"[1] == 'n' && "cp"[0] == 'c' && "np"[0] == 'n';
  }

  /** The cores named by a list of skip keys. */
  ghost function Named(keys: seq<string>): set<Kind> {
    set k | k in {EC, OC, EN, ON} && KeyOf(k) in keys
  }

  ghost predicate IsCoreKey(key: string) {
    exists k :: IsCore(k) && KeyOf(k) == key
  }

  /** The mask is the union of the named bits, whatever the order and repetitions; any other
      key is an error. */
  method ProfileFromSkipKinds(skipped: seq<string>) returns (mask: Option<Mask>)
    ensures mask.Some? <==> forall key | key in skipped :: IsCoreKey(key)
    ensures mask.Some? <==> forall key | key in skipped :: key == "ec" || key == "oc" || key == "en" || key == "on"
    ensures mask.Some? ==> Missing(mask.value) == Named(skipped) && mask.value & 0xF0 == 0
  {
    var acc: Mask := 0;
    NoBits();
    for i := 0 to |skipped|
      invariant forall key | key in skipped[..i] :: IsCoreKey(key)
      invariant forall key | key in skipped[..i] :: key == "ec" || key == "oc" || key == "en" || key == "on"
      invariant Missing(acc) == Named(skipped[..i]) && acc & 0xF0 == 0
    {
      assert skipped[..i + 1] == skipped[..i] + [skipped[i]];
      var kind := KindFromKey(skipped[i]);
      if kind.None? || kind.value == CP || kind.value == NP {
        KeysDiffer();
        assert !IsCoreKey(skipped[i]) && skipped[i] in skipped;
        return None;
      }
      assert IsCore(kind.value);
      KeysDiffer();
      SetBit(acc, kind.value);
      acc := acc | Bit(kind.value);
    }
    assert skipped[..|skipped|] == skipped;
    mask := Some(acc);
  }

  function CommaAt(s: string): (n: nat)
    ensures n <= |s| && ',' !in s[..n] && (n < |s| ==> s[n] == ',')
  {
    if s == "" || s[0] == ',' then 0
    else
      var n := CommaAt(s[1..]);
      assert s[..n + 1] == [s[0]] + s[1..][..n];
      n + 1
  }

  /** The non-empty pieces between commas. */
  function Parts(s: string): seq<string> {
    var n := CommaAt(s);
    var head := if n > 0 then [s[..n]] else [];
    if n == |s| then head else head + Parts(s[n + 1..])
  }

  method SplitCSV(s: string) returns (out: seq<string>)
    ensures out == Parts(s)
  {
    out := [];
    var start := 0;
    ghost var left := Parts(s);   // what the rest still contributes
    SplittingStarts(s);
    for i := 0 to |s| + 1
      invariant Splitting(s, start, i, out, left)
    {
      if i == |s| || s[i] == ',' {
        var part := s[start..i];
        assert |part| == i - start;
        left := PartTaken(s, start, i, out, left);
        if part != "" {
          out := out + [part];
        }
        start := i + 1;
      } else {
        NoCommaYet(s, start, i, left);
      }
    }
    assert out + left == out;
  }

  /** The parts done and those still to come make up the whole. */
  ghost predicate Splitting(s: string, start: nat, i: nat, out: seq<string>, left: seq<string>) {
    && start <= i && Parts(s) == out + left
    && if i <= |s| then Pending(s, start, i, left) else left == []
  }

  lemma SplittingStarts(s: string)
    ensures Splitting(s, 0, 0, [], Parts(s))
  {
    assert s[0..] == s;
  }

  lemma PartTaken(s: string, start: nat, i: nat, out: seq<string>, left: seq<string>) returns (left': seq<string>)
    requires Splitting(s, start, i, out, left) && i <= |s| && (i < |s| ==> s[i] == ',')
    ensures Splitting(s, i + 1, i + 1, if start < i then out + [s[start..i]] else out, left')
  {
    left' := NextPart(s, start, i, left);
    if start < i {
      Assoc(out, [s[start..i]], left');
    }
  }

  /** No comma since `start`, and `left` is what the text from there contributes. */
  ghost predicate Pending(s: string, start: nat, i: nat, left: seq<string>) {
    start <= i <= |s| && ',' !in s[start..i] && left == Parts(s[start..])
  }

  lemma NoCommaYet(s: string, start: nat, i: nat, left: seq<string>)
    requires Pending(s, start, i, left) && i < |s| && s[i] != ','
    ensures Pending(s, start, i + 1, left)
  {
    assert s[start..i + 1] == s[start..i] + [s[i]];
  }

  /** Takes the piece between `start` and the comma, or end, at `i` off the front. */
  lemma NextPart(s: string, start: nat, i: nat, left: seq<string>) returns (left': seq<string>)
    requires Pending(s, start, i, left) && (i < |s| ==> s[i] == ',')
    ensures start < i ==> left == [s[start..i]] + left'
    ensures start == i ==> left == left'
    ensures if i < |s| then Pending(s, i + 1, i + 1, left') else left' == []
  {
    var rest, n := s[start..], i - start;
    assert rest[..n] == s[start..i];
    FirstComma(rest, n);
    if i < |s| {
      assert rest[n + 1..] == s[i + 1..];
      left' := Parts(s[i + 1..]);
    } else {
      left' := [];
    }
  }

  lemma {:induction false} FirstComma(s: string, n: nat)
    requires n <= |s| && ',' !in s[..n] && (n < |s| ==> s[n] == ',')
    ensures CommaAt(s) == n
  {
    if n > 0 {
      assert s[..n][0] == s[0];
      assert s[..n] == [s[0]] + s[1..][..n - 1];
      FirstComma(s[1..], n - 1);
    }
  }

  function JoinComma(parts: seq<string>): string {
    if |parts| == 0 then "" else if |parts| == 1 then parts[0] else parts[0] + "," + JoinComma(parts[1..])
  }

  /** A piece in front of a comma is the first part, unless it is empty. */
  lemma PieceFirst(head: string, rest: string)
    requires ',' !in head
    ensures Parts(head + "," + rest) == (if head == "" then [] else [head]) + Parts(rest)
  {
    var s := head + "," + rest;
    assert s[..|head|] == head && s[|head| + 1..] == rest;
    FirstComma(s, |head|);
  }

  lemma OnePiece(piece: string)
    requires ',' !in piece
    ensures Parts(piece) == if piece == "" then [] else [piece]
  {
    assert piece[..|piece|] == piece;
    FirstComma(piece, |piece|);
  }

  function NonEmpty(pieces: seq<string>): seq<string> {
    if pieces == [] then [] else (if pieces[0] == "" then [] else [pieces[0]]) + NonEmpty(pieces[1..])
  }

  /** Whatever lies between the commas, splitting keeps the pieces in order and drops only the
      empty ones. */
  lemma {:induction false} SplitDropsEmpty(pieces: seq<string>)
    requires forall p | p in pieces :: ',' !in p
    ensures Parts(JoinComma(pieces)) == NonEmpty(pieces)
  {
    if |pieces| == 1 {
      assert pieces[0] in pieces;
      OnePiece(pieces[0]);
    } else if |pieces| > 1 {
      assert pieces[0] in pieces;
      forall p | p in pieces[1..] ensures ',' !in p {
        assert p in pieces;
      }
      PieceFirst(pieces[0], JoinComma(pieces[1..]));
      SplitDropsEmpty(pieces[1..]);
    }
  }

  /** Every string is some comma-free pieces joined, so that covers them all. */
  lemma {:induction false} EveryStringJoins(s: string) returns (pieces: seq<string>)
    ensures pieces != [] && (forall p | p in pieces :: ',' !in p) && JoinComma(pieces) == s
    decreases |s|
  {
    var n := CommaAt(s);
    if n == |s| {
      assert s[..n] == s;
      pieces := [s];
    } else {
      var rest := EveryStringJoins(s[n + 1..]);
      pieces := [s[..n]] + rest;
      assert pieces[1..] == rest;
      assert s == s[..n] + "," + s[n + 1..];
    }
  }

  /** Splitting undoes joining for any list of non-empty comma-free keys. */
  lemma SplitInvertsJoin(parts: seq<string>)
    requires forall p | p in parts :: p != "" && ',' !in p
    ensures Parts(JoinComma(parts)) == parts
  {
    SplitDropsEmpty(parts);
    NothingEmpty(parts);
  }

  lemma {:induction false} NothingEmpty(parts: seq<string>)
    requires forall p | p in parts :: p != ""
    ensures NonEmpty(parts) == parts
  {
    if parts != [] {
      assert parts[0] in parts;
      forall p | p in parts[1..] ensures p != "" {
        assert p in parts;
      }
      NothingEmpty(parts[1..]);
      assert parts == [parts[0]] + parts[1..];
    }
  }

  // ---- inventory ----

  datatype Stat = There(isDir: bool) | Absent | StatError

  datatype Disk = Disk(storages: seq<Stat>, files: map<Kind, Stat>) {
    ghost predicate StoragesFine()
      requires |storages| == 3
    {
      && (forall i :: 0 <= i < 3 ==> storages[i] == There(true) || storages[i] == Absent)
      && (forall i, j :: 0 <= i < j < 3 ==> storages[i].There? || storages[j].There?)
    }

    predicate Total() { |storages| == 3 && forall k | k in ALL_KINDS :: k in files }

    function Present(): set<Kind>
      requires Total()
    {
      set k | k in ALL_KINDS && files[k].There?
    }

    /** What a scan demands: readable storage directories of which at most one is missing,
        readable file entries, and both parities once a core is gone. */
    ghost predicate Scannable()
      requires Total()
    {
      && StoragesFine()
      && (forall k | k in ALL_KINDS :: !files[k].StatError?)
      && ((forall k | k in CORES :: k in Present()) || (CP in Present() && NP in Present()))
    }
  }

  /** Where a split leaves each particle: 0, 1 and 2 are storages A, B and C. */
  function StorageOf(k: Kind): nat {
    match k case EC => 0 case ON => 0 case OC => 1 case EN => 1 case CP => 2 case NP => 2
  }

  /** A complete object of which the storages in `gone` are lost. */
  ghost predicate Lacks(disk: Disk, gone: set<nat>)
    requires disk.Total()
  {
    && (forall i :: 0 <= i < 3 ==> disk.storages[i] == if i in gone then Absent else There(true))
    && (forall k | k in ALL_KINDS :: disk.files[k] == if StorageOf(k) in gone then Absent else There(false))
  }

  method ScanStorages(disk: Disk) returns (fine: bool)
    requires |disk.storages| == 3
    ensures fine <==> disk.StoragesFine()
  {
    var missing: seq<nat> := [];
    for i := 0 to 3
      invariant forall j :: 0 <= j < i ==> disk.storages[j] == There(true) || disk.storages[j] == Absent
      invariant forall j :: j in missing <==> 0 <= j < i && disk.storages[j].Absent?
      invariant forall j, k :: 0 <= j < k < |missing| ==> missing[j] < missing[k]
      invariant forall j :: 0 <= j < |missing| ==> missing[j] < i
    {
      match disk.storages[i]
      case Absent =>
        missing := missing + [i];
      case There(isDir) =>
        if !isDir {
          return false;
        }
      case StatError =>
        return false;
    }
    if |missing| >= 2 {
      assert missing[0] in missing && missing[1] in missing;
    }
    fine := |missing| < 2;
  }

  method ScanInventory(disk: Disk) returns (inv: Option<map<Kind, bool>>)
    requires disk.Total()
    ensures inv.Some? <==> disk.Scannable()
    ensures inv.Some? ==> Flagged(inv.value) == disk.Present()
    // any entry that exists counts, and an entry that cannot be looked at is never taken for a missing one
    ensures inv.Some? ==> forall k | k in ALL_KINDS :: Flag(inv.value, k) <==> disk.files[k].There?
    ensures inv.Some? ==> forall k | k in ALL_KINDS :: !disk.files[k].StatError?
    ensures inv.Some? ==> forall i :: 0 <= i < 3 ==> disk.storages[i] == There(true) || disk.storages[i] == Absent
  {
    var fine := ScanStorages(disk);
    if !fine {
      return None;
    }
    var present: map<Kind, bool> := map[];
    for i := 0 to |ALL_KINDS|
      invariant forall k | k in ALL_KINDS[..i] :: !disk.files[k].StatError?
      invariant forall k :: k in present <==> k in ALL_KINDS[..i] && disk.files[k].There?
      invariant forall k :: k in present ==> present[k]
    {
      assert ALL_KINDS[..i + 1] == ALL_KINDS[..i] + [ALL_KINDS[i]];
      match disk.files[ALL_KINDS[i]]
      case There(_) => present := present[ALL_KINDS[i] := true];
      case Absent =>
      case StatError =>
        return None;
    }
    assert ALL_KINDS[..|ALL_KINDS|] == ALL_KINDS;
    assert Flagged(present) == disk.Present();
    var absent := MissingCoreParticles(present);
    if |absent| > 0 && (!Flag(present, CP) || !Flag(present, NP)) {
      assert absent[0] in absent;
      return None;
    }
    inv := Some(present);
  }

  method MissingCoreParticles(present: map<Kind, bool>) returns (missing: seq<Kind>)
    ensures (set k | k in missing) == (set k | k in CORES && !Flag(present, k))
    ensures forall k :: k in missing <==> k in CORES && !Flag(present, k)
  {
    missing := [];
    for i := 0 to |CORES|
      invariant forall k :: k in missing <==> k in CORES[..i] && !Flag(present, k)
    {
      assert CORES[..i + 1] == CORES[..i] + [CORES[i]];
      if !Flag(present, CORES[i]) {
        missing := missing + [CORES[i]];
      }
    }
    assert CORES[..|CORES|] == CORES;
  }

  method ProfileFromInventory(present: map<Kind, bool>) returns (mask: Mask)
    ensures Missing(mask) == (set k | k in CORES && !Flag(present, k)) && mask & 0xF0 == 0
  {
    var absent := MissingCoreParticles(present);
    mask := 0;
    NoBits();
    for i := 0 to |absent|
      invariant Missing(mask) == (set k | k in absent[..i]) && mask & 0xF0 == 0
    {
      assert absent[..i + 1] == absent[..i] + [absent[i]];
      assert absent[i] in absent;
      SetBit(mask, absent[i]);
      mask := mask | Bit(absent[i]);
    }
    assert absent[..|absent|] == absent;
  }

  // ---- trailer folds ----

  datatype FooterMeta = FooterMeta(writeID: nat, length: nat, crc: nat)

  datatype TrailerMeta = TrailerMeta(writeID: nat, length: nat, crcs: map<Kind, nat>)

  /** The reported id and length belong to one and the same footer, preferably one with a
      non-zero id; without footers both are zero. */
  ghost predicate FromOneFooter(footers: map<Kind, FooterMeta>, writeID: nat, length: nat) {
    if footers == map[] then writeID == 0 && length == 0
    else
      && (exists k | k in footers :: footers[k].writeID == writeID && footers[k].length == length)
      && (writeID == 0 ==> forall k | k in footers :: footers[k].writeID == 0)
  }

  /** Folds the footers in whatever order the map gives them. */
  method FoldFooters(footers: map<Kind, FooterMeta>) returns (t: TrailerMeta)
    ensures FromOneFooter(footers, t.writeID, t.length)
    ensures footers != map[] ==>
              exists k | k in footers :: footers[k].writeID == t.writeID && footers[k].length == t.length
    ensures t.crcs == map k | k in footers :: footers[k].crc
  {
    var writeID, length := 0, 0;
    var crcs: map<Kind, nat> := map[];
    var todo := footers.Keys;
    while todo != {}
      invariant crcs.Keys + todo == footers.Keys && crcs.Keys !! todo
      invariant forall k | k in crcs :: crcs[k] == footers[k].crc
      invariant crcs == map[] ==> writeID == 0 && length == 0
      invariant crcs != map[] ==> exists k | k in crcs :: footers[k].writeID == writeID && footers[k].length == length
      invariant writeID == 0 ==> forall k | k in crcs :: footers[k].writeID == 0
    {
      var k :| k in todo;
      var f := footers[k];
      if writeID == 0 {
        writeID, length := f.writeID, f.length;
      } else {
        ghost var j :| j in crcs && footers[j].writeID == writeID && footers[j].length == length;
        assert j in crcs[k := f.crc];
      }
      crcs := crcs[k := f.crc];
      assert k in crcs;
      todo := todo - {k};
    }
    t := TrailerMeta(writeID, length, crcs);
  }

  /** Footers that agree give the same trailer in every order. */
  lemma AgreeingFootersOneResult(footers: map<Kind, FooterMeta>, w1: nat, l1: nat, w2: nat, l2: nat)
    requires forall j, k | j in footers && k in footers ::
               footers[j].writeID == footers[k].writeID && footers[j].length == footers[k].length
    requires FromOneFooter(footers, w1, l1) && FromOneFooter(footers, w2, l2)
    ensures w1 == w2 && l1 == l2
  {
  }
}

/** The fill part of a block definition: keys "fill" and "fill-i", the
    check of a fill text, the slot array handed to Fill, and the merge of a
    block's fills with the default fills (io/BlocksDefinitionReader.java). */
module FillDefinitions {
  import opened JavaText
  import opened Geometry
  import opened Fills

  /** The colour of a slot with neither a "fill-i" nor a valid "fill". */
  const DefaultFill: string := "color(RGB(154,157,84))"

  /** Whether the image behind a fill text loads, or the colour parser
      reads it: true, false, or an exception. Image loading and colour
      parsing are not part of this model. */
  type Check = string -> Parsed<bool>

  /** The key of the fill for hit-point count i. */
  function FillKey(i: nat): (k: string)
    ensures |k| > |"fill-"| && k[..|"fill-"|] == "fill-"
  {
    "fill-" + NatToString(i)
  }

  lemma FillKeyInjective(i: nat, j: nat)
    requires FillKey(i) == FillKey(j)
    ensures i == j
  {
    assert FillKey(i)[5..] == NatToString(i);
    assert FillKey(j)[5..] == NatToString(j);
    ValueOfInjective(i, j);
  }

  lemma FillKeyIsNotFill(i: nat)
    ensures FillKey(i) != "fill"
  {
  }

  lemma DefaultFillIsColor()
    ensures !IsImage(DefaultFill)
  {
    assert DefaultFill[0] == 'c';
  }

  /** checksValidFill: the image path of a bare "image(" cannot be cut out,
      so that text throws; every other text gets the check's answer. A text
      that does not throw can always be painted. */
  function ChecksValidFill(s: string, check: Check): (r: Parsed<bool>)
    ensures s == ImagePrefix ==> r.Throws?
    ensures s != ImagePrefix ==> r == check(s)
    ensures r.Done? && IsImage(s) ==> |s| > |ImagePrefix|
  {
    if IsImage(s) && |s| <= |ImagePrefix| then
      ShortImageIsPrefix(s);
      Throws
    else
      check(s)
  }

  predicate Accepted(s: string, check: Check)
  {
    ChecksValidFill(s, check) == Done(true)
  }

  predicate Rejected(s: string, check: Check)
  {
    ChecksValidFill(s, check) == Done(false)
  }

  /** The text of a slot with no "fill-i" of its own: the "fill" entry when
      it passes the check, the default colour otherwise. */
  function BaseFill(fills: map<string, string>, check: Check): (s: string)
    ensures "fill" in fills && Accepted(fills["fill"], check) ==> s == fills["fill"]
    ensures !("fill" in fills && Accepted(fills["fill"], check)) ==> s == DefaultFill
    ensures IsImage(s) ==> |s| > |ImagePrefix|
  {
    DefaultFillIsColor();
    if "fill" in fills && Accepted(fills["fill"], check) then fills["fill"] else DefaultFill
  }

  /** Puts p in front of a list of slots, and leaves an exception or a
      rejection as it is. */
  function Prepend(p: seq<string>, r: Parsed<Option<seq<string>>>): Parsed<Option<seq<string>>>
  {
    if r.Done? && r.value.Some? then Done(Some(p + r.value.value)) else r
  }

  lemma PrependTwice(p: seq<string>, q: seq<string>, r: Parsed<Option<seq<string>>>)
    ensures Prepend(p, Prepend(q, r)) == Prepend(p + q, r)
  {
    if r.Done? && r.value.Some? {
      assert p + (q + r.value.value) == (p + q) + r.value.value;
    }
  }

  /** Slots i to hitPoints, filled in order: the slot's own "fill-i" when
      present (a rejected one rejects the whole fill, a throwing one
      throws), the base text otherwise. */
  function SlotsFrom(fills: map<string, string>, i: nat, hitPoints: int, base: string, check: Check): (r: Parsed<Option<seq<string>>>)
    requires i >= 1
    ensures r.Done? && r.value.Some? ==> |r.value.value| == if i <= hitPoints then hitPoints - i + 1 else 0
    decreases hitPoints - i + 1
  {
    if i > hitPoints then Done(Some([]))
    else
      var key := FillKey(i);
      if key in fills then
        match ChecksValidFill(fills[key], check)
        case Throws => Throws
        case Done(ok) =>
          if ok then Prepend([fills[key]], SlotsFrom(fills, i + 1, hitPoints, base, check)) else Done(None)
      else
        Prepend([base], SlotsFrom(fills, i + 1, hitPoints, base, check))
  }

  /** The text of slot j: its own "fill-j" when present, the base text
      otherwise. */
  function SlotText(fills: map<string, string>, j: nat, base: string): string
  {
    if FillKey(j) in fills then fills[FillKey(j)] else base
  }

  /** A list of slots from i on is slot i's text followed by the slots
      from i + 1 on. */
  lemma SlotsFromHead(fills: map<string, string>, i: nat, hitPoints: int, base: string, check: Check)
    requires 1 <= i <= hitPoints
    requires SlotsFrom(fills, i, hitPoints, base, check).Done? && SlotsFrom(fills, i, hitPoints, base, check).value.Some?
    ensures var rest := SlotsFrom(fills, i + 1, hitPoints, base, check);
      rest.Done? && rest.value.Some? &&
      SlotsFrom(fills, i, hitPoints, base, check).value.value == [SlotText(fills, i, base)] + rest.value.value
  {
  }

  /** Slot j (at position j - i) holds its SlotText. */
  lemma {:induction false} SlotsFromShape(fills: map<string, string>, i: nat, hitPoints: int, base: string, check: Check)
    requires i >= 1
    ensures var r := SlotsFrom(fills, i, hitPoints, base, check);
      r.Done? && r.value.Some? ==>
        |r.value.value| == (if hitPoints >= i then hitPoints - i + 1 else 0) &&
        forall j :: i <= j <= hitPoints ==> r.value.value[j - i] == SlotText(fills, j, base)
    decreases hitPoints - i + 1
  {
    var r := SlotsFrom(fills, i, hitPoints, base, check);
    if i <= hitPoints && r.Done? && r.value.Some? {
      SlotsFromShape(fills, i + 1, hitPoints, base, check);
      SlotsFromHead(fills, i, hitPoints, base, check);
      var s := r.value.value;
      var rest := SlotsFrom(fills, i + 1, hitPoints, base, check).value.value;
      forall j | i <= j <= hitPoints
        ensures s[j - i] == SlotText(fills, j, base)
      {
        if j > i {
          assert s[j - i] == rest[j - (i + 1)];
        }
      }
    }
  }

  /** A result comes back only when every present "fill-j" is accepted. */
  lemma {:induction false} SlotsFromAccepted(fills: map<string, string>, i: nat, hitPoints: int, base: string, check: Check)
    requires i >= 1
    ensures var r := SlotsFrom(fills, i, hitPoints, base, check);
      r.Done? && r.value.Some? ==> forall j :: i <= j <= hitPoints && FillKey(j) in fills ==> Accepted(fills[FillKey(j)], check)
    decreases hitPoints - i + 1
  {
    if i <= hitPoints {
      SlotsFromAccepted(fills, i + 1, hitPoints, base, check);
    }
  }

  /** Without an exception, the slots are rejected exactly when some
      present "fill-j" is rejected. */
  lemma {:induction false} SlotsFromRejected(fills: map<string, string>, i: nat, hitPoints: int, base: string, check: Check)
    requires i >= 1
    ensures var r := SlotsFrom(fills, i, hitPoints, base, check);
      r.Done? ==> (r.value.None? <==> exists j :: i <= j <= hitPoints && FillKey(j) in fills && Rejected(fills[FillKey(j)], check))
    decreases hitPoints - i + 1
  {
    if i <= hitPoints {
      SlotsFromRejected(fills, i + 1, hitPoints, base, check);
      var key := FillKey(i);
      var rest := SlotsFrom(fills, i + 1, hitPoints, base, check);
      if key in fills && Rejected(fills[key], check) {
        assert i <= i <= hitPoints && FillKey(i) in fills && Rejected(fills[FillKey(i)], check);
      } else if key in fills && ChecksValidFill(fills[key], check).Throws? {
      } else {
        assert SlotsFrom(fills, i, hitPoints, base, check) == Prepend([if key in fills then fills[key] else base], rest);
        forall j | i <= j <= hitPoints && FillKey(j) in fills && Rejected(fills[FillKey(j)], check)
          ensures i + 1 <= j
        {
        }
      }
    }
  }

  /** What createFill hands to Fill for a hit-point count (see
      FillSlotsMeaning). It throws for a count below -1 (a negative array
      size), and for -1 together with a valid "fill" (slot 0 of an empty
      array). */
  function FillSlots(fills: map<string, string>, hitPoints: int, check: Check): (r: Parsed<Option<seq<string>>>)
    ensures hitPoints < -1 ==> r.Throws?
    ensures hitPoints == -1 && "fill" in fills && Accepted(fills["fill"], check) ==> r.Throws?
  {
    if hitPoints < -1 then Throws
    else if "fill" in fills && ChecksValidFill(fills["fill"], check).Throws? then Throws
    else if hitPoints == -1 && "fill" in fills && Accepted(fills["fill"], check) then Throws
    else
      var rest := SlotsFrom(fills, 1, hitPoints, BaseFill(fills, check), check);
      if rest.Done? && rest.value.Some? then Done(Some(if hitPoints >= 0 then [""] + rest.value.value else []))
      else rest
  }

  /** Slot 0 is empty and slot i holds the block's "fill-i" if present and
      otherwise the base text; every slot can be painted; the result is None
      exactly when a present "fill-i" is rejected. */
  lemma FillSlotsMeaning(fills: map<string, string>, hitPoints: int, check: Check)
    ensures var r := FillSlots(fills, hitPoints, check);
      r.Done? && r.value.Some? ==>
        var s := r.value.value;
        |s| == (if hitPoints >= 0 then hitPoints + 1 else 0) && (hitPoints >= 0 ==> s[0] == "") && Loadable(s) &&
        forall i :: 1 <= i <= hitPoints ==> s[i] == SlotText(fills, i, BaseFill(fills, check))
    ensures var r := FillSlots(fills, hitPoints, check);
      r.Done? ==> (r.value.None? <==> exists i :: 1 <= i <= hitPoints && FillKey(i) in fills && Rejected(fills[FillKey(i)], check))
  {
    var base := BaseFill(fills, check);
    SlotsFromShape(fills, 1, hitPoints, base, check);
    SlotsFromAccepted(fills, 1, hitPoints, base, check);
    SlotsFromRejected(fills, 1, hitPoints, base, check);
    var r := FillSlots(fills, hitPoints, check);
    if r.Done? && r.value.Some? && hitPoints >= 0 {
      var rest := SlotsFrom(fills, 1, hitPoints, base, check).value.value;
      var s := r.value.value;
      assert s == [""] + rest;
      forall i | 1 <= i <= hitPoints
        ensures s[i] == SlotText(fills, i, base)
      {
        assert s[i] == rest[i - 1];
      }
      forall i | 1 <= i < |s| && IsImage(s[i])
        ensures |s[i]| > |ImagePrefix|
      {
        if FillKey(i) in fills {
          assert Accepted(fills[FillKey(i)], check);
        }
      }
    }
  }

  /** The loop of createFill: slots 1 onwards, filled left to right, until
      a "fill-i" is rejected or throws. */
  method FillFrom(fillArray: array<string>, fills: map<string, string>, base: string, check: Check) returns (r: Parsed<bool>)
    requires fillArray.Length >= 1
    requires IsImage(base) ==> |base| > |ImagePrefix|
    modifies fillArray
    ensures fillArray[0] == old(fillArray[0])
    ensures var spec := SlotsFrom(fills, 1, fillArray.Length - 1, base, check);
      (r.Throws? <==> spec.Throws?) && (r == Done(false) <==> spec == Done(None)) &&
      (r == Done(true) ==> spec == Done(Some(fillArray[1..])))
    ensures r == Done(true) ==> Loadable(fillArray[..])
  {
    var hitPoints := fillArray.Length - 1;
    ghost var spec := SlotsFrom(fills, 1, hitPoints, base, check);
    assert fillArray[1..1] == [];
    assert spec == Prepend(fillArray[1..1], spec) by {
      if spec.Done? && spec.value.Some? {
        assert [] + spec.value.value == spec.value.value;
      }
    }
    var i := 1;
    while i < hitPoints + 1
      invariant 1 <= i <= hitPoints + 1
      invariant fillArray[0] == old(fillArray[0])
      invariant forall j :: 1 <= j < i && IsImage(fillArray[j]) ==> |fillArray[j]| > |ImagePrefix|
      invariant spec == Prepend(fillArray[1..i], SlotsFrom(fills, i, hitPoints, base, check))
    {
      var key := FillKey(i);
      ghost var done := fillArray[1..i];
      PrependTwice(done, [SlotText(fills, i, base)], SlotsFrom(fills, i + 1, hitPoints, base, check));
      if key in fills {
        var s := fills[key];
        var valid := ChecksValidFill(s, check);
        if valid.Throws? {
          return Throws;
        }
        if !valid.value {
          return Done(false);
        }
        fillArray[i] := s;
      } else {
        fillArray[i] := base;
      }
      assert fillArray[1..i + 1] == done + [SlotText(fills, i, base)];
      i := i + 1;
    }
    assert fillArray[1..i] == fillArray[1..];
    assert fillArray[1..i] + [] == fillArray[1..i];
    return Done(true);
  }

  /** createFill: the slot array is filled and handed to a new Fill. */
  method CreateFill(fills: map<string, string>, hitPoints: int, check: Check) returns (r: Parsed<Option<Fill>>)
    ensures r.Throws? <==> FillSlots(fills, hitPoints, check).Throws?
    ensures r.Done? && r.value.None? <==> FillSlots(fills, hitPoints, check) == Done(None)
    ensures r.Done? && r.value.Some? ==>
      var s := FillSlots(fills, hitPoints, check).value.value;
      fresh(r.value.value) && Loadable(s) && r.value.value.images == ImageTable(s) && r.value.value.colors == ColorTable(s)
  {
    if hitPoints + 1 < 0 {
      return Throws;
    }
    var fillArray := new string[hitPoints + 1](_ => "");
    var defaultColor := DefaultFill;
    if "fill" in fills {
      var valid := ChecksValidFill(fills["fill"], check);
      if valid.Throws? {
        return Throws;
      }
      if valid.value {
        defaultColor := fills["fill"];
        if fillArray.Length == 0 {
          return Throws;
        }
        fillArray[0] := "";
      }
    }
    assert defaultColor == BaseFill(fills, check);
    if fillArray.Length == 0 {
      assert fillArray[..] == [];
      var f := new Fill(fillArray);
      return Done(Some(f));
    }
    assert fillArray[0] == "";
    var ok := FillFrom(fillArray, fills, defaultColor, check);
    if ok.Throws? {
      return Throws;
    }
    if !ok.value {
      return Done(None);
    }
    assert fillArray[..] == [""] + fillArray[1..];
    var f := new Fill(fillArray);
    r := Done(Some(f));
  }

  /** unionMaps as written, one round of its loop: the block's entry for a
      key when it has one, the default entry otherwise. */
  function PutFrom(m: map<string, string>, fillsDef: map<string, string>, fills: map<string, string>, key: string): map<string, string>
  {
    if key in fills then m[key := fills[key]]
    else if key in fillsDef then m[key := fillsDef[key]]
    else m
  }

  /** The map after rounds 1 to n: "fill" and "fill-1" to "fill-n". */
  function UnionUpTo(fillsDef: map<string, string>, fills: map<string, string>, n: nat): (m: map<string, string>)
    ensures forall k :: k in m ==> k in fills || k in fillsDef
  {
    if n == 0 then map[]
    else PutFrom(PutFrom(UnionUpTo(fillsDef, fills, n - 1), fillsDef, fills, "fill"), fillsDef, fills, FillKey(n))
  }

  /** The number of rounds: the larger map's size plus one. */
  function UnionBound(fillsDef: map<string, string>, fills: map<string, string>): (n: nat)
    ensures n >= 1 && n > |fillsDef| && n > |fills|
  {
    (if |fillsDef| >= |fills| then |fillsDef| else |fills|) + 1
  }

  /** unionMaps: rounds i = 1 to max(sizes) + 1 of putting "fill" and
      "fill-i", the block's entry winning over the default. */
  method UnionMaps(fillsDef: map<string, string>, fills: map<string, string>) returns (newMap: map<string, string>)
    ensures newMap == UnionUpTo(fillsDef, fills, UnionBound(fillsDef, fills))
  {
    newMap := map[];
    var bound := UnionBound(fillsDef, fills);
    var i := 1;
    while i < bound + 1
      invariant 1 <= i <= bound + 1
      invariant newMap == UnionUpTo(fillsDef, fills, i - 1)
    {
      ghost var before := newMap;
      if "fill" in fills {
        newMap := newMap["fill" := fills["fill"]];
      } else if "fill" in fillsDef {
        newMap := newMap["fill" := fillsDef["fill"]];
      }
      assert newMap == PutFrom(before, fillsDef, fills, "fill");
      ghost var withFill := newMap;
      var key := FillKey(i);
      if key in fills {
        newMap := newMap[key := fills[key]];
      } else if key in fillsDef {
        newMap := newMap[key := fillsDef[key]];
      }
      assert newMap == PutFrom(withFill, fillsDef, fills, key);
      i := i + 1;
    }
  }

  /** The union never invents an entry: each one is the block's, or the
      default's when the block has none. */
  lemma {:induction false} UnionNoNewKeys(fillsDef: map<string, string>, fills: map<string, string>, n: nat, k: string)
    requires k in UnionUpTo(fillsDef, fills, n)
    ensures k in fills ==> UnionUpTo(fillsDef, fills, n)[k] == fills[k]
    ensures k !in fills ==> k in fillsDef && UnionUpTo(fillsDef, fills, n)[k] == fillsDef[k]
  {
    if n > 0 {
      if k != "fill" && k != FillKey(n) {
        UnionNoNewKeys(fillsDef, fills, n - 1, k);
      }
    }
  }

  /** After at least one round, "fill" and every "fill-i" up to the round
      count are kept when either map has them. */
  lemma {:induction false} UnionKeeps(fillsDef: map<string, string>, fills: map<string, string>, n: nat, j: nat)
    requires n >= 1
    ensures "fill" in fills || "fill" in fillsDef ==> "fill" in UnionUpTo(fillsDef, fills, n)
    ensures 1 <= j <= n && (FillKey(j) in fills || FillKey(j) in fillsDef) ==> FillKey(j) in UnionUpTo(fillsDef, fills, n)
  {
    FillKeyIsNotFill(n);
    if n > 1 && j < n {
      UnionKeeps(fillsDef, fills, n - 1, j);
    }
  }

  /** No "fill-j" beyond the round count survives, whatever the maps hold. */
  lemma {:induction false} UnionDrops(fillsDef: map<string, string>, fills: map<string, string>, n: nat, j: nat)
    requires j > n
    ensures FillKey(j) !in UnionUpTo(fillsDef, fills, n)
  {
    if n > 0 {
      FillKeyIsNotFill(j);
      if FillKey(j) == FillKey(n) {
        FillKeyInjective(j, n);
      }
      UnionDrops(fillsDef, fills, n - 1, j);
    }
  }

  /** The intended union: every entry of both maps, the block's winning. */
  function MergeFills(fillsDef: map<string, string>, fills: map<string, string>): (m: map<string, string>)
    ensures forall k :: k in m <==> k in fillsDef || k in fills
    ensures forall k :: k in m ==> m[k] == if k in fills then fills[k] else fillsDef[k]
  {
    fillsDef + fills
  }

  /** The loop bound loses a block's sparse fill: with no default fills and
      only "fill-3" in the block, two rounds run and "fill-3" is dropped,
      where the intended union keeps it. */
  lemma UnionMapsDropsSparseKey()
    ensures var fills := map[FillKey(3) := "color(red)"];
      UnionBound(map[], fills) == 2 &&
      FillKey(3) !in UnionUpTo(map[], fills, UnionBound(map[], fills)) &&
      FillKey(3) in MergeFills(map[], fills)
  {
    var fills := map[FillKey(3) := "color(red)"];
    assert |fills| == 1;
    UnionDrops(map[], fills, 2, 3);
  }

  /** Two maps that agree on "fill" and on "fill-1" to "fill-hitPoints"
      produce the same slots. */
  lemma {:induction false} SlotsFromAgree(m1: map<string, string>, m2: map<string, string>, i: nat, hitPoints: int, base: string, check: Check)
    requires i >= 1
    requires forall j :: i <= j <= hitPoints ==> (FillKey(j) in m1 <==> FillKey(j) in m2)
    requires forall j :: i <= j <= hitPoints && FillKey(j) in m1 ==> m1[FillKey(j)] == m2[FillKey(j)]
    ensures SlotsFrom(m1, i, hitPoints, base, check) == SlotsFrom(m2, i, hitPoints, base, check)
    decreases hitPoints - i + 1
  {
    if i <= hitPoints {
      SlotsFromAgree(m1, m2, i + 1, hitPoints, base, check);
    }
  }

  /** Two maps that agree on "fill" and on "fill-1" to "fill-hitPoints"
      give the same fill. */
  lemma FillSlotsAgree(m1: map<string, string>, m2: map<string, string>, hitPoints: int, check: Check)
    requires ("fill" in m1 <==> "fill" in m2) && ("fill" in m1 ==> m1["fill"] == m2["fill"])
    requires forall j :: 1 <= j <= hitPoints ==> (FillKey(j) in m1 <==> FillKey(j) in m2)
    requires forall j :: 1 <= j <= hitPoints && FillKey(j) in m1 ==> m1[FillKey(j)] == m2[FillKey(j)]
    ensures FillSlots(m1, hitPoints, check) == FillSlots(m2, hitPoints, check)
  {
    assert BaseFill(m1, check) == BaseFill(m2, check);
    SlotsFromAgree(m1, m2, 1, hitPoints, BaseFill(m1, check), check);
  }

  /** As long as the hit-point count stays within the round count, the
      union as written and the intended union give the same fill. */
  lemma UnionAgreesWithinBound(fillsDef: map<string, string>, fills: map<string, string>, hitPoints: int, check: Check)
    requires hitPoints <= UnionBound(fillsDef, fills)
    ensures FillSlots(UnionUpTo(fillsDef, fills, UnionBound(fillsDef, fills)), hitPoints, check) ==
            FillSlots(MergeFills(fillsDef, fills), hitPoints, check)
  {
    var n := UnionBound(fillsDef, fills);
    var u := UnionUpTo(fillsDef, fills, n);
    var m := MergeFills(fillsDef, fills);
    UnionKeeps(fillsDef, fills, n, 0);
    if "fill" in u {
      UnionNoNewKeys(fillsDef, fills, n, "fill");
    }
    forall j | 1 <= j <= hitPoints
      ensures (FillKey(j) in u <==> FillKey(j) in m) && (FillKey(j) in u ==> u[FillKey(j)] == m[FillKey(j)])
    {
      UnionKeeps(fillsDef, fills, n, j);
      if FillKey(j) in u {
        UnionNoNewKeys(fillsDef, fills, n, FillKey(j));
      }
    }
    FillSlotsAgree(u, m, hitPoints, check);
  }
}

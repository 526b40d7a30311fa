/** The MIDI CC automation table of HISE (MidiControllerAutomationHandler):
    128 lists of automation entries, one per controller number, a pending
    "unlearned" entry for MIDI learn, and an anyUsed flag. */
module MidiAutomation {

  /** A (weak) reference to a processor; NoProcessor is nullptr. */
  datatype ProcessorRef = NoProcessor | ProcessorRef(index: nat)

  /** A NormalisableRange<double>; the model only stores and compares it. */
  datatype NormalisableRange = NormalisableRange(start: real, end: real, interval: real, skew: real)

  /** A default-constructed NormalisableRange<double>. */
  const DefaultRange := NormalisableRange(0.0, 1.0, 0.0, 1.0)

  datatype AutomationData = AutomationData(
    processor: ProcessorRef,
    attribute: int,
    parameterRange: NormalisableRange,
    fullRange: NormalisableRange,
    macroIndex: int,
    ccNumber: int,
    used: bool,
    inverted: bool)

  /** A default-constructed (or cleared) AutomationData. */
  const EmptyData := AutomationData(NoProcessor, -1, DefaultRange, DefaultRange, -1, -1, false, false)

  const NumControllers := 128

  /** AutomationData::operator==: same processor and same attribute. */
  predicate SameTarget(a: AutomationData, b: AutomationData)
  {
    a.processor == b.processor && a.attribute == b.attribute
  }

  /** An entry standing for processor p and attribute attr, as compared by SameTarget. */
  function Target(p: ProcessorRef, attr: int): AutomationData
  {
    EmptyData.(processor := p, attribute := attr)
  }

  predicate ContainsTarget(s: seq<AutomationData>, x: AutomationData)
  {
    exists j :: 0 <= j < |s| && SameTarget(s[j], x)
  }

  ghost predicate NoDuplicateTargets(s: seq<AutomationData>)
  {
    forall i, j :: 0 <= i < j < |s| ==> !SameTarget(s[i], s[j])
  }

  /** Array::addIfNotAlreadyThere under AutomationData::operator==. */
  function AddIfNotAlreadyThere(s: seq<AutomationData>, x: AutomationData): (r: seq<AutomationData>)
    ensures ContainsTarget(r, x)
    ensures ContainsTarget(s, x) ==> r == s
    ensures !ContainsTarget(s, x) ==> r == s + [x]
    ensures NoDuplicateTargets(s) ==> NoDuplicateTargets(r)
  {
    if ContainsTarget(s, x) then s
    else
      assert SameTarget((s + [x])[|s|], x);
      s + [x]
  }

  /** Array::removeAllInstancesOf under AutomationData::operator==. */
  function RemoveAllInstancesOf(s: seq<AutomationData>, x: AutomationData): seq<AutomationData>
  {
    if s == [] then []
    else (if SameTarget(s[0], x) then [] else [s[0]]) + RemoveAllInstancesOf(s[1..], x)
  }

  /** removeAllInstancesOf keeps exactly the entries for another target. */
  lemma {:induction false} RemoveAllInstancesOfMembers(s: seq<AutomationData>, x: AutomationData)
    ensures forall e :: e in RemoveAllInstancesOf(s, x) <==> e in s && !SameTarget(e, x)
    ensures |RemoveAllInstancesOf(s, x)| <= |s|
  {
    if s != [] {
      RemoveAllInstancesOfMembers(s[1..], x);
      assert forall e :: e in s <==> e == s[0] || e in s[1..];
    }
  }

  /** Without an entry for x's target, removeAllInstancesOf changes nothing. */
  lemma {:induction false} RemoveAllInstancesOfAbsent(s: seq<AutomationData>, x: AutomationData)
    requires !ContainsTarget(s, x)
    ensures RemoveAllInstancesOf(s, x) == s
  {
    if s != [] {
      assert !SameTarget(s[0], x);
      assert !ContainsTarget(s[1..], x) by {
        forall j | 0 <= j < |s[1..]| ensures !SameTarget(s[1..][j], x) {
          assert s[1..][j] == s[j + 1];
        }
      }
      RemoveAllInstancesOfAbsent(s[1..], x);
    }
  }

  /** removeAllInstancesOf keeps a list free of repeated targets. */
  lemma {:induction false} RemoveAllInstancesOfNoDuplicates(s: seq<AutomationData>, x: AutomationData)
    requires NoDuplicateTargets(s)
    ensures NoDuplicateTargets(RemoveAllInstancesOf(s, x))
  {
    if s != [] {
      var rest := RemoveAllInstancesOf(s[1..], x);
      assert NoDuplicateTargets(s[1..]) by {
        forall i, j | 0 <= i < j < |s[1..]| ensures !SameTarget(s[1..][i], s[1..][j]) {
          assert s[1..][i] == s[i + 1] && s[1..][j] == s[j + 1];
        }
      }
      RemoveAllInstancesOfNoDuplicates(s[1..], x);
      RemoveAllInstancesOfMembers(s[1..], x);
      forall k | 0 <= k < |rest| ensures !SameTarget(s[0], rest[k]) {
        assert rest[k] in rest;
        var m :| 0 <= m < |s[1..]| && s[1..][m] == rest[k];
        assert s[m + 1] == rest[k];
      }
    }
  }

  /** What removeAllInstancesOf keeps: exactly the entries for another target,
      in their order, so no entry for x's target is left. */
  lemma RemoveAllInstancesOfKeeps(s: seq<AutomationData>, x: AutomationData)
    ensures forall e :: e in RemoveAllInstancesOf(s, x) <==> e in s && !SameTarget(e, x)
    ensures !ContainsTarget(RemoveAllInstancesOf(s, x), x)
    ensures !ContainsTarget(s, x) ==> RemoveAllInstancesOf(s, x) == s
    ensures NoDuplicateTargets(s) ==> NoDuplicateTargets(RemoveAllInstancesOf(s, x))
    ensures |RemoveAllInstancesOf(s, x)| <= |s|
  {
    RemoveAllInstancesOfMembers(s, x);
    var r := RemoveAllInstancesOf(s, x);
    forall j | 0 <= j < |r| ensures !SameTarget(r[j], x) {
      assert r[j] in r;
    }
    if !ContainsTarget(s, x) {
      RemoveAllInstancesOfAbsent(s, x);
    }
    if NoDuplicateTargets(s) {
      RemoveAllInstancesOfNoDuplicates(s, x);
    }
  }

  /** Removing the instances of two entries for the same target removes the same. */
  lemma {:induction false} RemoveAllInstancesOfSameTarget(s: seq<AutomationData>, x: AutomationData, y: AutomationData)
    requires SameTarget(x, y)
    ensures RemoveAllInstancesOf(s, x) == RemoveAllInstancesOf(s, y)
  {
    if s != [] {
      RemoveAllInstancesOfSameTarget(s[1..], x, y);
    }
  }

  /** The entries of all lists, controller by controller, each list in order. */
  function Flat(t: seq<seq<AutomationData>>): seq<AutomationData>
  {
    if t == [] then [] else Flat(t[..|t| - 1]) + t[|t| - 1]
  }

  lemma {:induction false} FlatSplit(t: seq<seq<AutomationData>>, k: nat)
    requires k <= |t|
    ensures Flat(t) == Flat(t[..k]) + Flat(t[k..])
  {
    if k == |t| {
      assert t[..k] == t;
      assert t[k..] == [];
    } else {
      var init := t[..|t| - 1];
      FlatSplit(init, k);
      assert init[..k] == t[..k];
      assert t[k..][..|t[k..]| - 1] == init[k..];
      assert t[k..][|t[k..]| - 1] == t[|t| - 1];
    }
  }

  /** A one-list table flattens to that list. */
  lemma FlatSingle(t: seq<seq<AutomationData>>)
    requires |t| == 1
    ensures Flat(t) == t[0]
  {
    assert t[..0] == [];
  }

  /** The lists up to and including controller i flatten to the lists before
      it followed by its list. */
  lemma FlatPrefix(t: seq<seq<AutomationData>>, i: nat)
    requires i < |t|
    ensures Flat(t[..i + 1]) == Flat(t[..i]) + t[i]
  {
    var upTo := t[..i + 1];
    assert upTo[..i] == t[..i];
    assert upTo[|upTo| - 1] == t[i];
  }

  /** The lists from controller i on flatten to its list followed by the
      flattened lists after it. */
  lemma FlatSuffix(t: seq<seq<AutomationData>>, i: nat)
    requires i < |t|
    ensures Flat(t[i..]) == t[i] + Flat(t[i + 1..])
  {
    var rest := t[i..];
    FlatSplit(rest, 1);
    var head := rest[..1];
    assert head == [t[i]];
    FlatSingle(head);
    assert rest[1..] == t[i + 1..];
  }

  /** The list of controller i sits in the flattened table between the lists
      before it and the lists after it. */
  lemma FlatAround(t: seq<seq<AutomationData>>, i: nat)
    requires i < |t|
    ensures Flat(t) == Flat(t[..i]) + t[i] + Flat(t[i + 1..])
    ensures Flat(t[..i + 1]) == Flat(t[..i]) + t[i]
  {
    FlatSplit(t, i);
    FlatSuffix(t, i);
    var a, b, c := Flat(t[..i]), t[i], Flat(t[i + 1..]);
    assert a + (b + c) == a + b + c;
    FlatPrefix(t, i);
  }

  /** Entry j of controller i has flattened index |Flat(t[..i])| + j. */
  lemma FlatIndex(t: seq<seq<AutomationData>>, i: nat, j: nat)
    requires i < |t| && j < |t[i]|
    ensures |Flat(t[..i])| + j < |Flat(t)|
    ensures Flat(t)[|Flat(t[..i])| + j] == t[i][j]
  {
    FlatAround(t, i);
    var a, b, c := Flat(t[..i]), t[i], Flat(t[i + 1..]);
    assert (a + b + c)[|a| + j] == b[j];
  }

  /** Changing entry j of controller i changes the flattened table at that
      entry's flattened index and nowhere else. */
  lemma FlatUpdate(t: seq<seq<AutomationData>>, i: nat, j: nat, x: AutomationData)
    requires i < |t| && j < |t[i]|
    ensures |Flat(t[..i])| + j < |Flat(t)|
    ensures Flat(t[i := t[i][j := x]]) == Flat(t)[|Flat(t[..i])| + j := x]
  {
    var u := t[i := t[i][j := x]];
    FlatAround(t, i);
    FlatAround(u, i);
    assert u[..i] == t[..i];
    assert u[i + 1..] == t[i + 1..];
    SpliceUpdate(Flat(t[..i]), t[i], Flat(t[i + 1..]), j, x);
  }

  /** Updating inside the middle part of a concatenation updates the middle part. */
  lemma SpliceUpdate(a: seq<AutomationData>, b: seq<AutomationData>, c: seq<AutomationData>, j: nat, x: AutomationData)
    requires j < |b|
    ensures (a + b + c)[|a| + j := x] == a + b[j := x] + c
  {
    var l, r := (a + b + c)[|a| + j := x], a + b[j := x] + c;
    assert |l| == |r|;
    forall k | 0 <= k < |l|
      ensures l[k] == r[k]
    {
      if k < |a| {
      } else if k < |a| + |b| {
      } else {
      }
    }
  }

  predicate AnyUsedIn(s: seq<AutomationData>)
  {
    exists j :: 0 <= j < |s| && s[j].used
  }

  predicate HasTarget(s: seq<AutomationData>, p: ProcessorRef, attr: int)
  {
    exists j :: 0 <= j < |s| && s[j].processor == p && s[j].attribute == attr
  }

  class MidiControllerAutomationHandler {
    const automationData: array<seq<AutomationData>>
    var unlearnedData: AutomationData
    var anyUsed: bool

    /** 128 controller lists, none holding two entries for the same target. */
    ghost predicate Valid()
      reads this, automationData
    {
      automationData.Length == NumControllers &&
      forall i :: 0 <= i < NumControllers ==> NoDuplicateTargets(automationData[i])
    }

    ghost function Table(): seq<seq<AutomationData>>
      reads this, automationData
    {
      automationData[..]
    }

    /** Some entry of some list is in use. */
    ghost predicate SomeEntryUsed()
      reads this, automationData
    {
      exists i :: 0 <= i < automationData.Length && AnyUsedIn(automationData[i])
    }

    constructor ()
      ensures Valid() && fresh(automationData)
      ensures forall i :: 0 <= i < NumControllers ==> automationData[i] == []
      ensures unlearnedData == EmptyData && !anyUsed
    {
      automationData := new seq<AutomationData>[NumControllers](_ => []);
      unlearnedData := EmptyData;
      anyUsed := false;
    }

    /** Starts MIDI learn for a parameter: the pending entry is filled in and used. */
    method AddMidiControlledParameter(interfaceProcessor: ProcessorRef, attributeIndex: int,
                                      parameterRange: NormalisableRange, macroIndex: int)
      modifies this`unlearnedData
      ensures unlearnedData == old(unlearnedData).(processor := interfaceProcessor, attribute := attributeIndex,
        parameterRange := parameterRange, fullRange := parameterRange, macroIndex := macroIndex, used := true)
      ensures IsLearningActive() && IsLearningActiveFor(interfaceProcessor, attributeIndex)
    {
      unlearnedData := unlearnedData.(processor := interfaceProcessor, attribute := attributeIndex,
        parameterRange := parameterRange, fullRange := parameterRange, macroIndex := macroIndex, used := true);
    }

    predicate IsLearningActive()
      reads this
    {
      unlearnedData.used
    }

    predicate IsLearningActiveFor(interfaceProcessor: ProcessorRef, attributeIndex: int)
      reads this
    {
      unlearnedData.processor == interfaceProcessor && unlearnedData.attribute == attributeIndex
    }

    method DeactivateMidiLearning()
      modifies this`unlearnedData
      ensures unlearnedData == EmptyData && !IsLearningActive()
    {
      unlearnedData := EmptyData;
    }

    /** Commits MIDI learn to controller ccNumber: the pending entry joins
        that controller's list unless an entry for its target is there. */
    method SetUnlearndedMidiControlNumber(ccNumber: int)
      requires Valid() && IsLearningActive() && 0 <= ccNumber < NumControllers
      modifies this`unlearnedData, this`anyUsed, automationData
      ensures Valid()
      ensures Table() == old(Table())[ccNumber :=
        AddIfNotAlreadyThere(old(automationData[ccNumber]), old(unlearnedData).(ccNumber := ccNumber))]
      ensures ContainsTarget(automationData[ccNumber], old(unlearnedData))
      ensures unlearnedData == EmptyData && !IsLearningActive() && anyUsed
    {
      unlearnedData := unlearnedData.(ccNumber := ccNumber);
      automationData[ccNumber] := AddIfNotAlreadyThere(automationData[ccNumber], unlearnedData);
      unlearnedData := EmptyData;
      anyUsed := true;
    }

    /** The lowest controller whose list has an entry for (p, attr), or -1. */
    method GetMidiControllerNumber(interfaceProcessor: ProcessorRef, attributeIndex: int) returns (cc: int)
      requires Valid()
      ensures -1 <= cc < NumControllers
      ensures cc == -1 <==> forall i :: 0 <= i < NumControllers ==> !HasTarget(automationData[i], interfaceProcessor, attributeIndex)
      ensures cc >= 0 ==> HasTarget(automationData[cc], interfaceProcessor, attributeIndex)
      ensures forall i :: 0 <= i < cc ==> !HasTarget(automationData[i], interfaceProcessor, attributeIndex)
    {
      for i := 0 to NumControllers
        invariant forall k :: 0 <= k < i ==> !HasTarget(automationData[k], interfaceProcessor, attributeIndex)
      {
        var list := automationData[i];
        for j := 0 to |list|
          invariant forall k :: 0 <= k < j ==> !(list[k].processor == interfaceProcessor && list[k].attribute == attributeIndex)
        {
          if list[j].processor == interfaceProcessor && list[j].attribute == attributeIndex {
            return i;
          }
        }
      }
      return -1;
    }

    method RefreshAnyUsedState()
      requires Valid()
      modifies this`anyUsed
      ensures anyUsed == SomeEntryUsed()
    {
      anyUsed := false;
      for i := 0 to NumControllers
        invariant !anyUsed
        invariant forall k :: 0 <= k < i ==> !AnyUsedIn(automationData[k])
      {
        var list := automationData[i];
        for j := 0 to |list|
          invariant forall k :: 0 <= k < j ==> !list[k].used
        {
          if list[j].used {
            anyUsed := true;
            assert AnyUsedIn(automationData[i]);
            return;
          }
        }
      }
    }

    method Clear()
      requires Valid()
      modifies this`unlearnedData, this`anyUsed, automationData
      ensures Valid()
      ensures forall i :: 0 <= i < NumControllers ==> automationData[i] == []
      ensures unlearnedData == EmptyData && !anyUsed
    {
      for i := 0 to NumControllers
        invariant forall k :: 0 <= k < i ==> automationData[k] == []
        invariant Valid()
      {
        automationData[i] := [];
      }
      unlearnedData := EmptyData;
      anyUsed := false;
    }

    /** Removes every entry for (p, attr) from every list and recomputes anyUsed. */
    method RemoveMidiControlledParameter(interfaceProcessor: ProcessorRef, attributeIndex: int)
      requires Valid()
      modifies this`anyUsed, automationData
      ensures Valid()
      ensures forall i :: 0 <= i < NumControllers ==>
        automationData[i] == RemoveAllInstancesOf(old(automationData[i]), Target(interfaceProcessor, attributeIndex))
      ensures forall i :: 0 <= i < NumControllers ==> !HasTarget(automationData[i], interfaceProcessor, attributeIndex)
      ensures anyUsed == SomeEntryUsed()
    {
      var key := Target(interfaceProcessor, attributeIndex);
      for i := 0 to NumControllers
        invariant Valid()
        invariant forall k :: 0 <= k < i ==> automationData[k] == RemoveAllInstancesOf(old(automationData[k]), key)
        invariant forall k :: i <= k < NumControllers ==> automationData[k] == old(automationData[k])
        invariant forall k :: 0 <= k < i ==> !ContainsTarget(automationData[k], key)
      {
        var list := automationData[i];
        var j := 0;
        while j < |list| && !(list[j].processor == interfaceProcessor && list[j].attribute == attributeIndex)
          invariant 0 <= j <= |list|
          invariant forall k :: 0 <= k < j ==> !SameTarget(list[k], key)
        {
          j := j + 1;
        }
        RemoveAllInstancesOfKeeps(list, key);
        if j < |list| {
          RemoveAllInstancesOfSameTarget(list, list[j], key);
          automationData[i] := RemoveAllInstancesOf(list, list[j]);
        }
      }
      forall i | 0 <= i < NumControllers
        ensures !HasTarget(automationData[i], interfaceProcessor, attributeIndex)
      {
        assert !ContainsTarget(automationData[i], key);
      }
      RefreshAnyUsedState();
    }

    /** The running-index scan shared by getDataFromIndex, setNewRangeForParameter
        and setParameterInverted: where the index-th entry of the flattened
        table sits, if there is one. */
    method FindFlattened(index: int) returns (found: bool, cc: nat, pos: nat)
      requires Valid()
      ensures found <==> 0 <= index < |Flat(Table())|
      ensures found ==> cc < NumControllers && pos < |automationData[cc]|
      ensures found ==> index == |Flat(Table()[..cc])| + pos
    {
      var currentIndex := 0;
      for i := 0 to NumControllers
        invariant currentIndex == |Flat(Table()[..i])|
        invariant index < 0 || index >= currentIndex
      {
        var list := automationData[i];
        FlatAround(Table(), i);
        for j := 0 to |list|
          invariant currentIndex == |Flat(Table()[..i])| + j
          invariant index < 0 || index >= currentIndex
        {
          if index == currentIndex {
            FlatIndex(Table(), i, j);
            return true, i, j;
          }
          currentIndex := currentIndex + 1;
        }
      }
      assert Table()[..NumControllers] == Table();
      return false, 0, 0;
    }

    /** The index-th entry in flattened order, or an empty entry. */
    method GetDataFromIndex(index: int) returns (d: AutomationData)
      requires Valid()
      ensures 0 <= index < |Flat(Table())| ==> d == Flat(Table())[index]
      ensures !(0 <= index < |Flat(Table())|) ==> d == EmptyData
    {
      var found, cc, pos := FindFlattened(index);
      if found {
        FlatIndex(Table(), cc, pos);
        return automationData[cc][pos];
      }
      return EmptyData;
    }

    /** The number of entries over all 128 lists. */
    method GetNumActiveConnections() returns (numActive: int)
      requires Valid()
      ensures numActive == |Flat(Table())|
    {
      numActive := 0;
      for i := 0 to NumControllers
        invariant numActive == |Flat(Table()[..i])|
      {
        FlatAround(Table(), i);
        numActive := numActive + |automationData[i]|;
      }
      assert Table()[..NumControllers] == Table();
    }

    method SetNewRangeForParameter(index: int, range: NormalisableRange) returns (ok: bool)
      requires Valid()
      modifies automationData
      ensures Valid()
      ensures ok <==> 0 <= index < |Flat(old(Table()))|
      ensures ok ==> Flat(Table()) == Flat(old(Table()))[index := Flat(old(Table()))[index].(parameterRange := range)]
      ensures !ok ==> Table() == old(Table())
      ensures forall i :: 0 <= i < NumControllers ==> |automationData[i]| == |old(automationData[i])|
    {
      var found, cc, pos := FindFlattened(index);
      if found {
        var a := automationData[cc][pos];
        FlatUpdate(Table(), cc, pos, a.(parameterRange := range));
        FlatIndex(Table(), cc, pos);
        automationData[cc] := automationData[cc][pos := a.(parameterRange := range)];
        return true;
      }
      return false;
    }

    method SetParameterInverted(index: int, value: bool) returns (ok: bool)
      requires Valid()
      modifies automationData
      ensures Valid()
      ensures ok <==> 0 <= index < |Flat(old(Table()))|
      ensures ok ==> Flat(Table()) == Flat(old(Table()))[index := Flat(old(Table()))[index].(inverted := value)]
      ensures !ok ==> Table() == old(Table())
      ensures forall i :: 0 <= i < NumControllers ==> |automationData[i]| == |old(automationData[i])|
    {
      var found, cc, pos := FindFlattened(index);
      if found {
        var a := automationData[cc][pos];
        FlatUpdate(Table(), cc, pos, a.(inverted := value));
        FlatIndex(Table(), cc, pos);
        automationData[cc] := automationData[cc][pos := a.(inverted := value)];
        return true;
      }
      return false;
    }
  }
}

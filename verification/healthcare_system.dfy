/**
 * The patient and prescription demo: a generic list repository with
 * first-match lookup and removal, and an application that groups the
 * prescriptions by patient id into a map and looks a patient's group up.
 */
module HealthcareSystem {
  import opened Wrappers

  /** A clock value (the date a prescription was issued); it plays no part in the logic. */
  type Date = int

  datatype Patient = Patient(id: int, name: string, age: int, gender: string)

  datatype Prescription = Prescription(id: int, patientId: int, medicationName: string, dateIssued: Date)

  /** i is the position of the first element of s that satisfies p. */
  predicate IsFirstMatch<T>(s: seq<T>, p: T -> bool, i: int) {
    0 <= i < |s| && p(s[i]) && forall j :: 0 <= j < i ==> !p(s[j])
  }

  /** The position FirstOrDefault stops at, if any element satisfies p. */
  function FirstIndex<T>(s: seq<T>, p: T -> bool): (r: Option<nat>)
    ensures r.Some? ==> IsFirstMatch(s, p, r.value)
    ensures r.None? <==> forall j :: 0 <= j < |s| ==> !p(s[j])
  {
    if s == [] then None
    else if p(s[0]) then Some(0)
    else match FirstIndex(s[1..], p)
      case None => None
      case Some(i) => Some(i + 1)
  }

  /** List<T>.Remove: drop the first element equal to x, or nothing when x is absent. */
  function RemoveFirst<T(==)>(s: seq<T>, x: T): (r: seq<T>)
    ensures x !in s ==> r == s
    ensures x in s ==> |r| == |s| - 1
  {
    if s == [] then []
    else
      assert s == [s[0]] + s[1..];
      if s[0] == x then s[1..]
      else [s[0]] + RemoveFirst(s[1..], x)
  }

  /** List<T>.Remove takes out exactly one occurrence of x when there is one, and nothing else. */
  lemma {:induction false} RemoveFirstDropsOne<T>(s: seq<T>, x: T)
    ensures multiset(RemoveFirst(s, x)) == multiset(s) - multiset{x}
  {
    if s != [] {
      assert s == [s[0]] + s[1..];
      if s[0] != x {
        RemoveFirstDropsOne(s[1..], x);
      }
    }
  }

  /**
   * Removing the value found at the first match removes exactly that
   * position: no earlier element can equal it, since it would match too.
   */
  lemma {:induction false} RemoveFirstAtFirstMatch<T>(s: seq<T>, p: T -> bool, i: int)
    requires IsFirstMatch(s, p, i)
    ensures RemoveFirst(s, s[i]) == s[..i] + s[i + 1..]
  {
    if i == 0 {
      assert s[1..] == s[..0] + s[1..];
    } else {
      assert s[0] != s[i] by { assert !p(s[0]); }
      assert IsFirstMatch(s[1..], p, i - 1) by {
        forall j | 0 <= j < i - 1 ensures !p(s[1..][j]) { assert s[1..][j] == s[j + 1]; }
      }
      RemoveFirstAtFirstMatch(s[1..], p, i - 1);
      assert s[1..][i - 1] == s[i];
      assert s[1..][..i - 1] == s[1..i];
      assert s[1..][i - 1 + 1..] == s[i + 1..];
      assert [s[0]] + s[1..i] == s[..i];
    }
  }

  /** Repository<T>: a list that is appended to and searched in insertion order. */
  class Repository<T(==)> {
    var items: seq<T>

    constructor ()
      ensures items == []
    {
      items := [];
    }

    /** Add: append at the end; duplicates are allowed. */
    method Add(item: T)
      modifies this
      ensures items == old(items) + [item]
    {
      items := items + [item];
    }

    /** GetAll: a copy of the current list; being a value, later changes do not reach it. */
    method GetAll() returns (all: seq<T>)
      ensures all == items
    {
      all := items;
    }

    /** GetById: the first element, in insertion order, that satisfies the predicate. */
    method GetById(matches: T -> bool) returns (r: Option<T>)
      ensures r.None? <==> forall j :: 0 <= j < |items| ==> !matches(items[j])
      ensures r.Some? ==> exists i :: IsFirstMatch(items, matches, i) && r.value == items[i]
    {
      match FirstIndex(items, matches)
      case None =>
        r := None;
      case Some(i) =>
        r := Some(items[i]);
    }

    /** Remove: delete only the first matching element and report whether there was one. */
    method Remove(matches: T -> bool) returns (removed: bool)
      modifies this
      ensures removed <==> exists j :: 0 <= j < |old(items)| && matches(old(items)[j])
      ensures !removed ==> items == old(items)
      ensures removed ==> exists i :: IsFirstMatch(old(items), matches, i) &&
                                      items == old(items)[..i] + old(items)[i + 1..]
    {
      match FirstIndex(items, matches)
      case None =>
        removed := false;
      case Some(i) =>
        ghost var before := items;
        var item := items[i];
        RemoveFirstAtFirstMatch(items, matches, i);
        items := RemoveFirst(items, item);
        removed := true;
        assert IsFirstMatch(before, matches, i);
    }
  }

  /** The prescriptions of one patient, in repository order. */
  function PrescriptionsOf(s: seq<Prescription>, patientId: int): (r: seq<Prescription>)
    ensures |r| <= |s|
  {
    if s == [] then []
    else
      var last := s[|s| - 1];
      PrescriptionsOf(s[..|s| - 1], patientId) + (if last.patientId == patientId then [last] else [])
  }

  /** The patient ids that occur in s. */
  function PatientIds(s: seq<Prescription>): set<int> {
    set p | p in s :: p.patientId
  }

  /** The map BuildPrescriptionMap is to produce: each present patient id to its prescriptions. */
  function GroupByPatient(s: seq<Prescription>): (m: map<int, seq<Prescription>>)
    ensures m.Keys == PatientIds(s)
  {
    map patientId | patientId in PatientIds(s) :: PrescriptionsOf(s, patientId)
  }

  /** A group holds only prescriptions of its patient, each taken from s. */
  lemma {:induction false} PrescriptionsOfSound(s: seq<Prescription>, patientId: int)
    ensures forall p :: p in PrescriptionsOf(s, patientId) ==> p.patientId == patientId && p in s
  {
    if s != [] {
      PrescriptionsOfSound(s[..|s| - 1], patientId);
      forall p | p in s[..|s| - 1] ensures p in s {
        var k :| 0 <= k < |s| - 1 && s[..|s| - 1][k] == p;
        assert s[k] == p;
      }
    }
  }

  /** A group holds every occurrence of every prescription of its patient. */
  lemma {:induction false} PrescriptionsOfComplete(s: seq<Prescription>, p: Prescription)
    ensures multiset(PrescriptionsOf(s, p.patientId))[p] == multiset(s)[p]
  {
    if s != [] {
      PrescriptionsOfComplete(s[..|s| - 1], p);
      assert s == s[..|s| - 1] + [s[|s| - 1]];
    }
  }

  /** A patient id that does not occur has an empty group. */
  lemma {:induction false} AbsentPatientHasNoPrescriptions(s: seq<Prescription>, patientId: int)
    requires patientId !in PatientIds(s)
    ensures PrescriptionsOf(s, patientId) == []
  {
    if s != [] {
      assert s[..|s| - 1] + [s[|s| - 1]] == s;
      assert PatientIds(s[..|s| - 1]) <= PatientIds(s) by {
        forall q | q in s[..|s| - 1] ensures q in s {
          var k :| 0 <= k < |s| - 1 && s[..|s| - 1][k] == q;
          assert s[k] == q;
        }
      }
      AbsentPatientHasNoPrescriptions(s[..|s| - 1], patientId);
      assert s[|s| - 1] in s;
    }
  }

  /** Grouping one more prescription appends it to its patient's group, creating the group if new. */
  lemma GroupByPatientAppend(s: seq<Prescription>, p: Prescription)
    ensures var m := GroupByPatient(s);
            GroupByPatient(s + [p]) ==
              m[p.patientId := (if p.patientId in m then m[p.patientId] else []) + [p]]
  {
    var t := s + [p];
    assert t[..|t| - 1] == s;
    var m := GroupByPatient(s);
    var m' := m[p.patientId := (if p.patientId in m then m[p.patientId] else []) + [p]];
    assert PatientIds(t) == PatientIds(s) + {p.patientId} by {
      forall q | q in t ensures q in s || q == p {
        var k :| 0 <= k < |t| && t[k] == q;
        if k < |s| { assert s[k] == q; }
      }
      forall q | q in s ensures q in t {
        var k :| 0 <= k < |s| && s[k] == q;
        assert t[k] == q;
      }
      assert p in t;
    }
    if p.patientId !in m {
      AbsentPatientHasNoPrescriptions(s, p.patientId);
    }
    forall patientId | patientId in PatientIds(t)
      ensures GroupByPatient(t)[patientId] == m'[patientId]
    {
      assert PrescriptionsOf(t, patientId) ==
        PrescriptionsOf(s, patientId) + (if p.patientId == patientId then [p] else []);
    }
    assert GroupByPatient(t) == m';
  }

  /** The same step on a prefix: grouping the first n + 1 prescriptions adds the (n + 1)th to the grouping of the first n. */
  lemma GroupByPatientStep(s: seq<Prescription>, n: nat)
    requires n < |s|
    ensures var m, p := GroupByPatient(s[..n]), s[n];
            GroupByPatient(s[..n + 1]) ==
              m[p.patientId := (if p.patientId in m then m[p.patientId] else []) + [p]]
  {
    assert s[..n + 1] == s[..n] + [s[n]];
    GroupByPatientAppend(s[..n], s[n]);
  }

  /** The distinct patient ids of s, in the order they first occur. */
  function FirstSeenIds(s: seq<Prescription>): (ids: seq<int>)
    ensures forall i, j :: 0 <= i < j < |ids| ==> ids[i] != ids[j]
    ensures forall id :: id in ids <==> id in PatientIds(s)
  {
    if s == [] then []
    else
      var prefix := s[..|s| - 1];
      var ids := FirstSeenIds(prefix);
      var last := s[|s| - 1];
      assert s == prefix + [last];
      assert PatientIds(s) == PatientIds(prefix) + {last.patientId} by {
        forall q | q in s ensures q in prefix || q == last {
          var k :| 0 <= k < |s| && s[k] == q;
          if k < |prefix| { assert prefix[k] == q; }
        }
        forall q | q in prefix ensures q in s {
          var k :| 0 <= k < |prefix| && prefix[k] == q;
          assert s[k] == q;
        }
      }
      if last.patientId in ids then ids else ids + [last.patientId]
  }

  /** The sum of the sizes of the groups listed in ids. */
  function GroupSizes(m: map<int, seq<Prescription>>, ids: seq<int>): nat
    requires forall i :: 0 <= i < |ids| ==> ids[i] in m
  {
    if ids == [] then 0
    else GroupSizes(m, ids[..|ids| - 1]) + |m[ids[|ids| - 1]]|
  }

  /** The sum of the group sizes of s, counted straight from PrescriptionsOf. */
  function SizeSum(s: seq<Prescription>, ids: seq<int>): nat {
    if ids == [] then 0
    else SizeSum(s, ids[..|ids| - 1]) + |PrescriptionsOf(s, ids[|ids| - 1])|
  }

  lemma {:induction false} GroupSizesIsSizeSum(s: seq<Prescription>, ids: seq<int>)
    requires forall i :: 0 <= i < |ids| ==> ids[i] in PatientIds(s)
    ensures GroupSizes(GroupByPatient(s), ids) == SizeSum(s, ids)
  {
    if ids != [] {
      GroupSizesIsSizeSum(s, ids[..|ids| - 1]);
    }
  }

  /** One more prescription adds one to the sum exactly when its patient id is listed. */
  lemma {:induction false} SizeSumAppend(s: seq<Prescription>, p: Prescription, ids: seq<int>)
    requires forall i, j :: 0 <= i < j < |ids| ==> ids[i] != ids[j]
    ensures SizeSum(s + [p], ids) == SizeSum(s, ids) + (if p.patientId in ids then 1 else 0)
  {
    var t := s + [p];
    assert t[..|t| - 1] == s;
    if ids != [] {
      var init := ids[..|ids| - 1];
      SizeSumAppend(s, p, init);
      assert p.patientId in ids <==> p.patientId in init || p.patientId == ids[|ids| - 1];
      assert ids[|ids| - 1] !in init;
    }
  }

  /** The group sizes, taken over each patient id once, add up to the number of prescriptions. */
  lemma {:induction false} GroupSizesSum(s: seq<Prescription>)
    ensures GroupSizes(GroupByPatient(s), FirstSeenIds(s)) == |s|
  {
    var ids := FirstSeenIds(s);
    assert forall i :: 0 <= i < |ids| ==> ids[i] in ids;
    GroupSizesIsSizeSum(s, ids);
    SizeSumIsLength(s);
  }

  lemma {:induction false} SizeSumIsLength(s: seq<Prescription>)
    ensures SizeSum(s, FirstSeenIds(s)) == |s|
  {
    if s != [] {
      var prefix := s[..|s| - 1];
      var last := s[|s| - 1];
      assert s == prefix + [last];
      SizeSumIsLength(prefix);
      var ids := FirstSeenIds(prefix);
      SizeSumAppend(prefix, last, ids);
      if last.patientId !in ids {
        AbsentPatientHasNoPrescriptions(prefix, last.patientId);
        assert PrescriptionsOf(s, last.patientId) == [last];
        assert (ids + [last.patientId])[..|ids|] == ids;
      }
    }
  }

  /** Each group keeps repository order: it is a subsequence of s. */
  predicate IsSubsequence(t: seq<Prescription>, s: seq<Prescription>)
  {
    if t == [] then true
    else if s == [] then false
    else if t[|t| - 1] == s[|s| - 1] then IsSubsequence(t[..|t| - 1], s[..|s| - 1])
    else IsSubsequence(t, s[..|s| - 1])
  }

  lemma {:induction false} PrescriptionsOfInOrder(s: seq<Prescription>, patientId: int)
    ensures IsSubsequence(PrescriptionsOf(s, patientId), s)
  {
    if s != [] {
      var prefix := s[..|s| - 1];
      PrescriptionsOfInOrder(prefix, patientId);
      var g := PrescriptionsOf(prefix, patientId);
      if s[|s| - 1].patientId == patientId {
        assert (g + [s[|s| - 1]])[..|g|] == g;
      } else {
        assert PrescriptionsOf(s, patientId) == g;
        SubsequenceOfPrefix(g, prefix, s);
      }
    }
  }

  lemma {:induction false} SubsequenceOfPrefix(t: seq<Prescription>, prefix: seq<Prescription>, s: seq<Prescription>)
    requires s != [] && prefix == s[..|s| - 1]
    requires IsSubsequence(t, prefix)
    ensures IsSubsequence(t, s)
    decreases |s|, 0
  {
    if t != [] && t[|t| - 1] == s[|s| - 1] {
      SubsequenceDropLast(t, prefix);
    }
  }

  lemma {:induction false} SubsequenceDropLast(t: seq<Prescription>, s: seq<Prescription>)
    requires t != [] && IsSubsequence(t, s)
    ensures IsSubsequence(t[..|t| - 1], s)
    decreases |s|, 1
  {
    if s != [] {
      var s' := s[..|s| - 1];
      if t[|t| - 1] == s[|s| - 1] {
        SubsequenceOfPrefix(t[..|t| - 1], s', s);
      } else {
        SubsequenceDropLast(t, s');
        SubsequenceOfPrefix(t[..|t| - 1], s', s);
      }
    }
  }

  /** The patients SeedData adds, in order. */
  const SeedPatients := [
    Patient(1101, "Harriet Zoe", 23, "Female"),
    Patient(1102, "Janet Adjei", 38, "Female"),
    Patient(1103, "Samuel Zirkzee", 43, "Male")]

  /** The prescriptions SeedData adds, in order, issued the given number of days before `now`. */
  function SeedPrescriptions(now: Date): seq<Prescription> {
    [ Prescription(1, 1101, "LUFART", now - 5),
      Prescription(2, 1101, "PARACETAMOL", now - 2),
      Prescription(3, 1102, "AMUZU GARLIC", now - 10),
      Prescription(4, 1103, "CITRO C", now - 7),
      Prescription(5, 1101, "COLODIUM", now - 1)]
  }

  /** The seeded groups of patients 1101 and 1102, one prescription at a time. */
  lemma SeedGroups(now: Date)
    ensures var s := SeedPrescriptions(now);
            && PrescriptionsOf(s, 1101) == [s[0], s[1], s[4]]
            && PrescriptionsOf(s, 1102) == [s[2]]
  {
    var s := SeedPrescriptions(now);
    var s1, s2, s3, s4 := s[..1], s[..2], s[..3], s[..4];
    assert s1[..0] == [] && s2[..1] == s1 && s3[..2] == s2 && s4[..3] == s3 && s[..4] == s4;
    assert PrescriptionsOf(s1, 1101) == [s[0]] && PrescriptionsOf(s1, 1102) == [];
    assert PrescriptionsOf(s2, 1101) == [s[0], s[1]] && PrescriptionsOf(s2, 1102) == [];
    assert PrescriptionsOf(s3, 1101) == [s[0], s[1]] && PrescriptionsOf(s3, 1102) == [s[2]];
    assert PrescriptionsOf(s4, 1101) == [s[0], s[1]] && PrescriptionsOf(s4, 1102) == [s[2]];
  }

  /**
   * The demo: after seeding an empty app and building the map, patient 1102
   * has the one prescription 3, patient 1101 has 1, 2 and 5 in that order,
   * and the map has exactly the three patient ids as keys.
   */
  lemma DemoGrouping(now: Date)
    ensures var m := GroupByPatient(SeedPrescriptions(now));
            && m.Keys == {1101, 1102, 1103}
            && m[1102] == [SeedPrescriptions(now)[2]]
            && m[1101] == [SeedPrescriptions(now)[0], SeedPrescriptions(now)[1], SeedPrescriptions(now)[4]]
  {
    var s := SeedPrescriptions(now);
    assert PatientIds(s) == {1101, 1102, 1103} by {
      assert s[0] in s && s[2] in s && s[3] in s;
    }
    SeedGroups(now);
  }

  /** HealthSystemApp: the two repositories and the prescription map built from them. */
  class HealthSystemApp {
    const patientRepo: Repository<Patient>
    const prescriptionRepo: Repository<Prescription>
    var prescriptionMap: map<int, seq<Prescription>>

    constructor ()
      ensures fresh(patientRepo) && fresh(prescriptionRepo)
      ensures patientRepo.items == [] && prescriptionRepo.items == [] && prescriptionMap == map[]
    {
      patientRepo := new Repository<Patient>();
      prescriptionRepo := new Repository<Prescription>();
      prescriptionMap := map[];
    }

    /** SeedData; `now` is the clock value the issue dates are computed from. */
    method SeedData(now: Date)
      modifies patientRepo, prescriptionRepo
      ensures patientRepo.items == old(patientRepo.items) + SeedPatients
      ensures prescriptionRepo.items == old(prescriptionRepo.items) + SeedPrescriptions(now)
    {
      patientRepo.Add(Patient(1101, "Harriet Zoe", 23, "Female"));
      patientRepo.Add(Patient(1102, "Janet Adjei", 38, "Female"));
      patientRepo.Add(Patient(1103, "Samuel Zirkzee", 43, "Male"));

      prescriptionRepo.Add(Prescription(1, 1101, "LUFART", now - 5));
      prescriptionRepo.Add(Prescription(2, 1101, "PARACETAMOL", now - 2));
      prescriptionRepo.Add(Prescription(3, 1102, "AMUZU GARLIC", now - 10));
      prescriptionRepo.Add(Prescription(4, 1103, "CITRO C", now - 7));
      prescriptionRepo.Add(Prescription(5, 1101, "COLODIUM", now - 1));
    }

    /**
     * BuildPrescriptionMap: clear the map, then add each prescription to
     * its patient's list. The result depends only on the repository, so
     * building twice gives the same map as building once.
     */
    method BuildPrescriptionMap()
      modifies this`prescriptionMap
      ensures prescriptionMap == GroupByPatient(prescriptionRepo.items)
    {
      prescriptionMap := map[];
      var all := prescriptionRepo.GetAll();
      var n := 0;
      while n < |all|
        invariant 0 <= n <= |all|
        invariant prescriptionMap == GroupByPatient(all[..n])
      {
        var prescription := all[n];
        GroupByPatientStep(all, n);
        if prescription.patientId !in prescriptionMap {
          prescriptionMap := prescriptionMap[prescription.patientId := []];
        }
        prescriptionMap := prescriptionMap[prescription.patientId :=
          prescriptionMap[prescription.patientId] + [prescription]];
        n := n + 1;
      }
      assert all[..n] == all;
    }

    /**
     * GetPrescriptionsByPatientId: the grouped list for a known id, an empty
     * list otherwise; after a build, exactly that patient's prescriptions.
     */
    method GetPrescriptionsByPatientId(patientId: int) returns (r: seq<Prescription>)
      ensures patientId in prescriptionMap ==> r == prescriptionMap[patientId]
      ensures patientId !in prescriptionMap ==> r == []
      ensures prescriptionMap == GroupByPatient(prescriptionRepo.items) ==>
                r == PrescriptionsOf(prescriptionRepo.items, patientId)
    {
      if patientId in prescriptionMap {
        r := prescriptionMap[patientId];
      } else {
        r := [];
        if prescriptionMap == GroupByPatient(prescriptionRepo.items) {
          AbsentPatientHasNoPrescriptions(prescriptionRepo.items, patientId);
        }
      }
    }
  }
}

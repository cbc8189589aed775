/** The lab-test picker: the catalog, the comma-separated codec the selection is
    stored in, catalog search, and the toggle and remove operations on the
    selected list. */
module LabTestSelector {
  import opened Base
  import opened Text
  import opened Seqs

  /** The catalog of orderable tests, in display order. */
  const AvailableTests: seq<string> := [
    "Complete Blood Count (CBC)",
    "Lipid Profile",
    "Liver Function Test (LFT)",
    "Kidney Function Test (KFT)",
    "Thyroid Profile (T3, T4, TSH)",
    "Blood Sugar (Fasting)",
    "Blood Sugar (Post Prandial)",
    "HbA1c",
    "Hemoglobin",
    "Iron Profile",
    "Vitamin D Total",
    "Vitamin B12",
    "Electrolytes (Na, K, Cl)",
    "Calcium",
    "Uric Acid",
    "ESR",
    "Dengue NS1 Antigen",
    "Typhoid (Widal)",
    "Malaria Parasite",
    "HIV 1 & 2 Antibody",
    "Hepatitis B (HBsAg)",
    "Hepatitis C (HCV)",
    "Syphilis (VDRL)",
    "COVID-19 RT-PCR",
    "Urine Routine & Microscopy",
    "Urine Culture",
    "Stool Routine",
    "X-Ray Chest PA View",
    "X-Ray Spine",
    "X-Ray Joints",
    "ECG (Electrocardiogram)",
    "Ultrasound Abdomen",
    "Ultrasound Pelvis",
    "CT Scan Brain",
    "CT Scan Chest",
    "MRI Brain",
    "MRI Spine",
    "Echocardiography (2D Echo)"
  ]

  /** An entry the codec can carry: non-empty, trimmed and free of commas. */
  predicate Storable(t: string) {
    t != "" && IsTrimmed(t) && ',' !in t
  }

  /** Trims each piece and drops the empty ones, keeping the order. */
  function Clean(pieces: seq<string>): (r: seq<string>)
    ensures |r| <= |pieces|
    ensures forall i :: 0 <= i < |r| ==> r[i] != "" && IsTrimmed(r[i])
    decreases |pieces|
  {
    if pieces == [] then []
    else
      var t := Trim(pieces[0]);
      if t == "" then Clean(pieces[1..]) else [t] + Clean(pieces[1..])
  }

  /** Cleaning comma-free pieces gives comma-free entries. */
  lemma {:induction false} CleanCommaFree(pieces: seq<string>)
    requires forall i :: 0 <= i < |pieces| ==> ',' !in pieces[i]
    ensures forall i :: 0 <= i < |Clean(pieces)| ==> ',' !in Clean(pieces)[i]
    decreases |pieces|
  {
    if pieces != [] {
      var t := Trim(pieces[0]);
      var rest := Clean(pieces[1..]);
      assert forall i :: 0 <= i < |pieces[1..]| ==> ',' !in pieces[1..][i] by {
        forall i | 0 <= i < |pieces[1..]| ensures ',' !in pieces[1..][i] {
          assert pieces[1..][i] == pieces[i + 1];
        }
      }
      CleanCommaFree(pieces[1..]);
      if t != "" {
        TrimKeepsOut(pieces[0], ',');
        var r := [t] + rest;
        assert Clean(pieces) == r;
        forall i | 0 <= i < |r| ensures ',' !in r[i] {
          if i > 0 {
            assert r[i] == rest[i - 1];
          }
        }
      }
    }
  }

  /** A character absent from a string is absent from its trim. */
  lemma TrimKeepsOut(s: string, c: char)
    requires c !in s
    ensures c !in Trim(s)
  {
    var a := TrimStart(s);
    assert a == s[|s| - |a|..];
    var b := TrimEnd(a);
    assert b == a[..|b|];
  }

  /** No piece of a split contains the separator. */
  lemma {:induction false} SplitPiecesPlain(s: string, sep: char)
    ensures forall i :: 0 <= i < |Split(s, sep)| ==> sep !in Split(s, sep)[i]
    decreases |s|
  {
    if s != [] {
      SplitPiecesPlain(s[1..], sep);
    }
  }

  /** The selection effect: `selectedTests.split(',').map(t => t.trim()).filter(Boolean)`,
      and the empty list for a null or empty string.  Every entry is non-empty,
      trimmed and comma-free. */
  function ParseTests(selectedTests: Option<string>): (r: seq<string>)
    ensures !Truthy(selectedTests) ==> r == []
    ensures forall i :: 0 <= i < |r| ==> Storable(r[i])
  {
    if !Truthy(selectedTests) then []
    else
      SplitPiecesPlain(selectedTests.value, ',');
      CleanCommaFree(Split(selectedTests.value, ','));
      Clean(Split(selectedTests.value, ','))
  }

  /** `list.join(', ')`, the string handed to `onChange`. */
  function JoinTests(list: seq<string>): string {
    Join(list, ", ")
  }

  lemma {:induction false} JoinNonEmpty(list: seq<string>)
    requires list != [] && list[0] != ""
    ensures JoinTests(list) != ""
  {
    if |list| > 1 {
      assert JoinTests(list) == list[0] + ", " + JoinTests(list[1..]);
    }
  }

  /** Cleaning keeps a first piece that trims to a non-empty entry, trimmed. */
  lemma {:induction false} CleanFirst(piece: string, tail: seq<string>)
    requires Trim(piece) != ""
    ensures Clean([piece] + tail) == [Trim(piece)] + Clean(tail)
  {
    assert ([piece] + tail)[1..] == tail;
  }

  /** The joined form of a list of two or more entries, split at its first comma. */
  lemma JoinFirst(ws: string, list: seq<string>)
    requires |list| > 1
    ensures ws + JoinTests(list) == (ws + list[0]) + [','] + (" " + JoinTests(list[1..]))
  {
    var x, rest := list[0], JoinTests(list[1..]);
    assert JoinTests(list) == x + ", " + rest;
    assert ", " + rest == [','] + (" " + rest);
  }

  /** Parsing the joined list after any leading whitespace gives the list back. */
  lemma {:induction false} CleanSplitJoin(ws: string, list: seq<string>)
    requires AllSpace(ws) && list != []
    requires forall i :: 0 <= i < |list| ==> Storable(list[i])
    ensures Clean(Split(ws + JoinTests(list), ',')) == list
    decreases |list|
  {
    var x := list[0];
    assert ',' !in ws + x by {
      assert !IsSpace(',');
    }
    TrimSpacePrefix(ws, x);
    if |list| == 1 {
      SplitPlain(ws + x, ',');
      CleanFirst(ws + x, []);
    } else {
      var rest := JoinTests(list[1..]);
      JoinFirst(ws, list);
      SplitFirst(ws + x, ',', " " + rest);
      CleanFirst(ws + x, Split(" " + rest, ','));
      assert AllSpace(" ");
      CleanSplitJoin(" ", list[1..]);
    }
  }

  /** The codec round trip: a list of storable entries survives `onChange` and
      the re-parse of the string that comes back. */
  lemma ParseJoinRoundTrip(list: seq<string>)
    requires forall i :: 0 <= i < |list| ==> Storable(list[i])
    ensures ParseTests(Some(JoinTests(list))) == list
  {
    if list != [] {
      JoinNonEmpty(list);
      assert AllSpace("");
      CleanSplitJoin("", list);
      assert "" + JoinTests(list) == JoinTests(list);
    }
  }

  /** `list.filter(t => t !== test)`: every occurrence of `test` removed, the
      others kept in order. */
  function Removed(list: seq<string>, test: string): (r: seq<string>)
    ensures test !in r
    ensures forall x :: x != test ==> multiset(r)[x] == multiset(list)[x]
  {
    var r := Filter((t: string) => t != test, list);
    forall x | x != test
      ensures multiset(r)[x] == multiset(list)[x]
    {
      FilterMultiset((t: string) => t != test, list, x);
    }
    r
  }

  /** Removing an absent name leaves the list unchanged. */
  lemma RemoveAbsent(list: seq<string>, test: string)
    requires test !in list
    ensures Removed(list, test) == list
  {
    FilterAll((t: string) => t != test, list);
  }

  /** The toggle: a present test is removed (every occurrence); an absent one is
      appended at the end. */
  function Toggled(list: seq<string>, test: string): (r: seq<string>)
    ensures test in list ==> r == Removed(list, test)
    ensures test !in list ==> r == list + [test]
  {
    if test in list then Removed(list, test) else list + [test]
  }

  /** Toggling an absent test twice restores the list. */
  lemma ToggleTwice(list: seq<string>, test: string)
    requires test !in list
    ensures Toggled(Toggled(list, test), test) == list
  {
    var p := (t: string) => t != test;
    FilterAppend(p, list, [test]);
    FilterAll(p, list);
    assert Filter(p, [test]) == [];
  }

  /** Catalog search: the catalog entries containing the term, ignoring case, in
      catalog order. */
  function FilteredTests(catalog: seq<string>, searchTerm: string): (r: seq<string>)
    ensures forall i :: 0 <= i < |r| ==> r[i] in catalog && ContainsIgnoreCase(r[i], searchTerm)
    ensures forall i :: 0 <= i < |catalog| && ContainsIgnoreCase(catalog[i], searchTerm) ==> catalog[i] in r
  {
    Filter((t: string) => ContainsIgnoreCase(t, searchTerm), catalog)
  }

  /** An empty search lists the whole catalog, whatever it holds. */
  lemma EmptySearchListsAll(catalog: seq<string>)
    ensures FilteredTests(catalog, "") == catalog
  {
    assert ToLower("") == "";
    forall t: string
      ensures ContainsIgnoreCase(t, "")
    {
      ContainsEmpty(ToLower(t));
    }
    FilterAll((t: string) => ContainsIgnoreCase(t, ""), catalog);
  }

  /** The catalog offered holds 38 tests, all listed before anything is typed. */
  lemma EmptySearchListsCatalog()
    ensures |FilteredTests(AvailableTests, "")| == 38
  {
    EmptySearchListsAll(AvailableTests);
  }

  /** The selector's state: the parsed selection and the search box. */
  class Selector {
    var selectedList: seq<string>
    var searchTerm: string
    /** The catalog the dropdown offers. */
    const catalog: seq<string>

    constructor (catalog: seq<string>)
      ensures selectedList == [] && searchTerm == "" && this.catalog == catalog
    {
      selectedList := [];
      searchTerm := "";
      this.catalog := catalog;
    }

    /** The effect run when the `selectedTests` prop changes. */
    method Sync(selectedTests: Option<string>)
      modifies this`selectedList
      ensures selectedList == ParseTests(selectedTests)
    {
      if selectedTests.Some? && selectedTests.value != "" {
        var pieces := Split(selectedTests.value, ',');
        selectedList := Clean(pieces);
      } else {
        selectedList := [];
      }
    }

    /** `handleToggleTest`: toggles the test and returns the string passed to `onChange`. */
    method HandleToggleTest(test: string) returns (emitted: string)
      modifies this`selectedList
      ensures selectedList == Toggled(old(selectedList), test)
      ensures emitted == JoinTests(selectedList)
    {
      var newList;
      if test in selectedList {
        newList := Removed(selectedList, test);
      } else {
        newList := selectedList + [test];
      }
      selectedList := newList;
      emitted := JoinTests(newList);
    }

    /** `handleRemoveTest`: removes the test and returns the string passed to `onChange`. */
    method HandleRemoveTest(test: string) returns (emitted: string)
      modifies this`selectedList
      ensures selectedList == Removed(old(selectedList), test)
      ensures emitted == JoinTests(selectedList)
    {
      selectedList := Removed(selectedList, test);
      emitted := JoinTests(selectedList);
    }

    /** `filteredTests` for the current search term. */
    function Filtered(): seq<string>
      reads this
    {
      FilteredTests(catalog, searchTerm)
    }
  }

  /** An entry that is itself the joined form of several storable pieces comes
      back from the parent as those pieces, not as itself. */
  lemma {:induction false} JoinedEntryBreaksApart(entry: string, pieces: seq<string>)
    requires forall i :: 0 <= i < |pieces| ==> Storable(pieces[i])
    requires entry == JoinTests(pieces)
    ensures ParseTests(Some(JoinTests([entry]))) == pieces
  {
    assert JoinTests([entry]) == entry;
    ParseJoinRoundTrip(pieces);
  }

  /** The catalog as written holds entries with commas.  Once selected, "Thyroid
      Profile (T3, T4, TSH)", the fifth entry, comes back from the parent as three
      entries. */
  lemma CommaEntryBreaksApart(entry: string)
    requires entry == AvailableTests[4]
    ensures entry == "Thyroid Profile (T3, T4, TSH)"
    ensures ParseTests(Some(JoinTests([entry]))) == ["Thyroid Profile (T3", "T4", "TSH)"]
  {
    var pieces := ["Thyroid Profile (T3", "T4", "TSH)"];
    assert Storable(pieces[0]) && Storable(pieces[1]) && Storable(pieces[2]);
    assert entry == JoinTests(pieces) by {
      assert JoinTests(pieces[2..]) == "TSH)";
      assert JoinTests(pieces[1..]) == "T4, TSH)";
    }
    JoinedEntryBreaksApart(entry, pieces);
  }

  /** The catalog with the commas inside the two panel names replaced by slashes. */
  const StorableTests: seq<string> := AvailableTests[4 := "Thyroid Profile (T3/T4/TSH)"][12 := "Electrolytes (Na/K/Cl)"]

  lemma StorableFrom0()
    ensures forall i :: 0 <= i < 5 ==> Storable(StorableTests[i])
  {
  }

  lemma StorableFrom5()
    ensures forall i :: 5 <= i < 10 ==> Storable(StorableTests[i])
  {
  }

  lemma StorableFrom10()
    ensures forall i :: 10 <= i < 15 ==> Storable(StorableTests[i])
  {
  }

  lemma StorableFrom15()
    ensures forall i :: 15 <= i < 20 ==> Storable(StorableTests[i])
  {
  }

  lemma StorableFrom20()
    ensures forall i :: 20 <= i < 25 ==> Storable(StorableTests[i])
  {
  }

  lemma StorableFrom25()
    ensures forall i :: 25 <= i < 30 ==> Storable(StorableTests[i])
  {
  }

  lemma StorableFrom30()
    ensures forall i :: 30 <= i < 35 ==> Storable(StorableTests[i])
  {
  }

  lemma StorableFrom35()
    ensures forall i :: 35 <= i < 38 ==> Storable(StorableTests[i])
  {
  }

  /** Every entry of the corrected catalog is storable. */
  lemma StorableCatalog()
    ensures |StorableTests| == |AvailableTests| == 38
    ensures forall i :: 0 <= i < |StorableTests| ==> Storable(StorableTests[i])
  {
    StorableFrom0();
    StorableFrom5();
    StorableFrom10();
    StorableFrom15();
    StorableFrom20();
    StorableFrom25();
    StorableFrom30();
    StorableFrom35();
  }

  /** With the corrected catalog, any selection survives the round trip. */
  lemma StorableSelectionRoundTrip(list: seq<string>)
    requires forall i :: 0 <= i < |list| ==> list[i] in StorableTests
    ensures ParseTests(Some(JoinTests(list))) == list
  {
    StorableCatalog();
    ParseJoinRoundTrip(list);
  }
}

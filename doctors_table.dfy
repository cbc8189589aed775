/** The doctor table's cells: the avatar initials, the status badge, the
    experience cell and which action buttons appear. */
module DoctorsTable {
  import opened Base
  import opened Text
  import opened Seqs

  /** `.map(n => n[0]).join('')`: the first character of every non-empty word
      (an empty word contributes nothing). */
  function FirstChars(words: seq<string>): string
    decreases |words|
  {
    if words == [] then ""
    else (if words[0] == "" then "" else [words[0][0]]) + FirstChars(words[1..])
  }

  predicate IsLowerAscii(c: char) { 'a' <= c <= 'z' }

  /** `getInitials`: the first letters of the space-separated words, upper-cased,
      at most two of them. */
  function Initials(name: string): (r: string)
    ensures |r| <= 2
    ensures forall i :: 0 <= i < |r| ==> !IsLowerAscii(r[i])
  {
    Take(ToUpper(FirstChars(Split(name, ' '))), 2)
  }

  /** A one-word name gives its first letter. */
  lemma InitialsOfOneWord(name: string)
    requires name != "" && ' ' !in name
    ensures Initials(name) == [UpperChar(name[0])]
  {
    SplitPlain(name, ' ');
    assert FirstChars([name]) == [name[0]] + FirstChars([]);
  }

  /** "First Last" gives the two first letters, upper-cased. */
  lemma InitialsOfTwoWords(first: string, last: string)
    requires first != "" && last != "" && ' ' !in first && ' ' !in last
    ensures Initials(first + " " + last) == [UpperChar(first[0]), UpperChar(last[0])]
  {
    assert first + " " + last == first + [' '] + last;
    SplitFirst(first, ' ', last);
    SplitPlain(last, ' ');
    assert [first] + [last] == [first, last];
    assert FirstChars([first, last]) == [first[0]] + FirstChars([last]);
    assert FirstChars([last]) == [last[0]] + FirstChars([]);
  }

  /** A third word does not show: only two letters are kept. */
  lemma InitialsOfThreeWords(a: string, b: string, c: string)
    requires a != "" && b != "" && c != "" && ' ' !in a && ' ' !in b && ' ' !in c
    ensures Initials(a + " " + b + " " + c) == [UpperChar(a[0]), UpperChar(b[0])]
  {
    assert a + " " + b + " " + c == a + [' '] + (b + [' '] + c);
    SplitFirst(a, ' ', b + [' '] + c);
    SplitFirst(b, ' ', c);
    SplitPlain(c, ' ');
    assert [a] + ([b] + [c]) == [a, b, c];
    assert FirstChars([a, b, c]) == [a[0]] + FirstChars([b, c]);
    assert FirstChars([b, c]) == [b[0]] + FirstChars([c]);
    assert FirstChars([c]) == [c[0]] + FirstChars([]);
  }

  /** `(status || 'ACTIVE').toUpperCase() === 'ACTIVE'`: a missing or empty status
      counts as active. */
  predicate IsActive(status: Option<string>) {
    ToUpper(if Truthy(status) then status.value else "ACTIVE") == "ACTIVE"
  }

  /** The badge says Active exactly when the status is missing, empty, or
      "active" in any mix of cases. */
  lemma IsActiveIgnoresCase(status: Option<string>)
    ensures IsActive(status) <==> !Truthy(status) || EqualsIgnoreCase(status.value, "ACTIVE")
  {
    if Truthy(status) {
      var x := status.value;
      assert ToLower("ACTIVE") == "active";
      if ToUpper(x) == "ACTIVE" {
        forall i | 0 <= i < |x| ensures LowerChar(x[i]) == "active"[i] {
          assert UpperChar(x[i]) == "ACTIVE"[i];
        }
        assert ToLower(x) == "active";
      }
      if ToLower(x) == "active" {
        forall i | 0 <= i < |x| ensures UpperChar(x[i]) == "ACTIVE"[i] {
          assert LowerChar(x[i]) == "active"[i];
        }
        assert ToUpper(x) == "ACTIVE";
      }
    } else {
      assert ToUpper("ACTIVE") == "ACTIVE";
    }
  }

  /** `doctor.experience ? `${experience} years` : '-'` */
  function ExperienceCell(experience: Option<int>): (r: string)
    ensures r == "-" <==> experience.None? || experience.value == 0
  {
    if experience.Some? && experience.value != 0 then IntToDecimal(experience.value) + " years" else "-"
  }

  datatype Action = View | Edit | Delete

  /** View is always offered; Edit and Delete only when the screen passes their
      callbacks. */
  function Actions(hasEdit: bool, hasDelete: bool): (r: seq<Action>)
    ensures View in r
    ensures Edit in r <==> hasEdit
    ensures Delete in r <==> hasDelete
  {
    [View] + (if hasEdit then [Edit] else []) + (if hasDelete then [Delete] else [])
  }
}

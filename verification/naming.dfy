/** Index naming (app.py's `get_index_name_from_pdf`): the index name is
    derived from the PDF's title metadata, or from the file's stem when the
    title is missing or blank. The PDF read and the path splitting are not
    modelled: the title and the stem are inputs. */
module IndexNaming {
  import opened Wrappers

  /** Python's `str.isspace` characters. */
  predicate IsSpace(c: char) {
    || c == ' ' || c == '\t' || c == '\n' || c == '\r' || c == '\U{B}' || c == '\U{C}'
    || '\U{1C}' <= c <= '\U{1F}' || c == '\U{85}' || c == '\U{A0}' || c == '\U{1680}'
    || '\U{2000}' <= c <= '\U{200A}' || c == '\U{2028}' || c == '\U{2029}' || c == '\U{202F}'
    || c == '\U{205F}' || c == '\U{3000}'
  }

  /** The number of whitespace characters `s` starts with. */
  function LeadingSpaces(s: string): (n: nat)
    ensures n <= |s|
    ensures forall k :: 0 <= k < n ==> IsSpace(s[k])
    ensures n < |s| ==> !IsSpace(s[n])
  {
    if s != [] && IsSpace(s[0]) then
      var n := 1 + LeadingSpaces(s[1..]);
      assert forall k :: 1 <= k < n ==> s[k] == s[1..][k - 1];
      n
    else 0
  }

  /** The number of whitespace characters `s` ends with. */
  function TrailingSpaces(s: string): (n: nat)
    ensures n <= |s|
    ensures forall k :: |s| - n <= k < |s| ==> IsSpace(s[k])
    ensures n < |s| ==> !IsSpace(s[|s| - n - 1])
  {
    if s != [] && IsSpace(s[|s| - 1]) then 1 + TrailingSpaces(s[..|s| - 1]) else 0
  }

  /** Python's `str.strip()`: the contiguous slice of `s` between its leading
      and its trailing whitespace. It neither starts nor ends with whitespace,
      and is empty exactly when `s` is all whitespace. */
  function Strip(s: string): (r: string)
    ensures |r| <= |s|
    ensures var a := LeadingSpaces(s);
      && a + |r| <= |s|
      && r == s[a..a + |r|]
      && (forall k :: 0 <= k < a ==> IsSpace(s[k]))
      && (forall k :: a + |r| <= k < |s| ==> IsSpace(s[k]))
    ensures r == [] || (!IsSpace(r[0]) && !IsSpace(r[|r| - 1]))
    ensures r == [] <==> forall k :: 0 <= k < |s| ==> IsSpace(s[k])
  {
    var a := LeadingSpaces(s);
    if a == |s| then []
    else
      var e := |s| - TrailingSpaces(s);
      s[a..e]
  }

  /** Lower-casing of one character (only A-Z are mapped). */
  function LowerChar(c: char): char {
    if 'A' <= c <= 'Z' then (c as int + 32) as char else c
  }

  /** Python's `str.lower()`, character by character. */
  function Lower(s: string): (r: string)
    ensures |r| == |s| && forall i :: 0 <= i < |s| ==> r[i] == LowerChar(s[i])
  {
    seq(|s|, i requires 0 <= i < |s| => LowerChar(s[i]))
  }

  /** `replace(" ", "_")`. */
  function ReplaceSpaces(s: string): (r: string)
    ensures |r| == |s| && forall i :: 0 <= i < |s| ==> r[i] == (if s[i] == ' ' then '_' else s[i])
  {
    seq(|s|, i requires 0 <= i < |s| => if s[i] == ' ' then '_' else s[i])
  }

  /** `"20"` occurs in `s` starting at position `i`. */
  predicate Has20At(s: string, i: int) {
    0 <= i && i + 1 < |s| && s[i] == '2' && s[i + 1] == '0'
  }

  predicate Contains20(s: string) {
    exists i :: 0 <= i < |s| && Has20At(s, i)
  }

  /** `s.split('20')[0]`: the part of `s` before the first occurrence of "20",
      or all of `s` when there is none. */
  function BeforeFirst20(s: string): (r: string)
    ensures |r| <= |s| && r == s[..|r|]
    ensures forall i :: 0 <= i < |r| ==> !Has20At(s, i)
    ensures |r| < |s| ==> Has20At(s, |r|)
  {
    if |s| < 2 then s
    else if s[0] == '2' && s[1] == '0' then []
    else
      var rest := BeforeFirst20(s[1..]);
      assert forall i :: 1 <= i < |s| ==> (Has20At(s, i) <==> Has20At(s[1..], i - 1));
      [s[0]] + rest
  }

  /** The title branch: the stripped, lower-cased title with spaces replaced. */
  function TitleName(title: string): string {
    ReplaceSpaces(Lower(Strip(title)))
  }

  /** The file-stem branch: the lower-cased stem cut before its first "20",
      with spaces replaced. It is no longer than the stem, corresponds to the
      stem character by character, stops exactly at the stem's first "20"
      (or runs to the end), and never contains "20" itself. */
  function StemName(stem: string): (r: string)
    ensures |r| <= |stem|
    ensures forall i :: 0 <= i < |r| ==> r[i] == (if stem[i] == ' ' then '_' else LowerChar(stem[i]))
    ensures forall i :: 0 <= i < |r| ==> !Has20At(stem, i)
    ensures |r| < |stem| ==> Has20At(stem, |r|)
    ensures !Contains20(r)
  {
    var lowered := Lower(stem);
    assert forall i :: 0 <= i < |stem| ==> (Has20At(lowered, i) <==> Has20At(stem, i));
    var cut := BeforeFirst20(lowered);
    assert forall i :: 0 <= i < |cut| ==> (Has20At(cut, i) ==> Has20At(lowered, i));
    var r := ReplaceSpaces(cut);
    assert forall i :: 0 <= i < |r| ==> (Has20At(r, i) <==> Has20At(cut, i));
    r
  }

  /** Whether the title metadata is usable: present and not blank. */
  predicate UsableTitle(title: Option<string>) {
    title.Some? && Strip(title.value) != ""
  }

  /** `get_index_name_from_pdf`: a usable title gives its stripped, lower-cased
      form with spaces replaced by "_"; otherwise the stem's name is used. In
      both branches the name contains no space. */
  function IndexName(title: Option<string>, stem: string): (r: string)
    ensures UsableTitle(title) ==>
              var t := Strip(title.value);
              && |r| == |t|
              && forall i :: 0 <= i < |t| ==> r[i] == (if t[i] == ' ' then '_' else LowerChar(t[i]))
    ensures !UsableTitle(title) ==> r == StemName(stem)
    ensures forall i :: 0 <= i < |r| ==> r[i] != ' '
  {
    if UsableTitle(title) then TitleName(title.value) else StemName(stem)
  }

  /** Title "My Report" gives "my_report", whatever the file is called. */
  lemma TitleExample(title: Option<string>, stem: string)
    requires title == Some("My Report")
    ensures IndexName(title, stem) == "my_report"
  {
    assert LeadingSpaces("My Report") == 0;
    assert TrailingSpaces("My Report") == 0;
    assert Lower("My Report") == "my report";
    assert ReplaceSpaces("my report") == "my_report";
  }

  /** Without a title, the stem "survey2023" gives "survey". */
  lemma StemExample(stem: string)
    requires stem == "survey2023"
    ensures IndexName(None, stem) == "survey"
  {
    assert Lower(stem) == stem;
    var cut := BeforeFirst20(stem);
    assert Has20At(stem, 6);
    assert forall i :: 0 <= i < 6 ==> !Has20At(stem, i);
    assert |cut| == 6;
    assert cut == "survey";
    assert ReplaceSpaces("survey") == "survey";
  }

  /** Without a usable title, a stem that starts with "20" gives the empty name. */
  lemma LeadingYearGivesEmptyName(title: Option<string>, stem: string)
    requires !UsableTitle(title)
    requires |stem| >= 2 && stem[0] == '2' && stem[1] == '0'
    ensures IndexName(title, stem) == ""
  {
    assert Has20At(stem, 0);
  }
}

/** The text encodings of the workbook export (audit/export.py): column letters and cell references
    in the form of section 18.18.7 (ST_CellRef) of ECMA-376 Part 1, and character data escaped with
    the predefined entities of section 4.6 of XML 1.0. */
module XlsxText {
  import opened Wrappers
  import opened Sequences

  // ----- Column letters

  function Letter(digit: int): char
    requires 0 <= digit < 26
  {
    'A' + digit as char
  }

  predicate IsLetter(c: char) {
    'A' <= c <= 'Z'
  }

  function LetterValue(c: char): nat
    requires IsLetter(c)
  {
    c as int - 'A' as int
  }

  /** The column letters of a positive number: bijective base 26. */
  function Column(n: nat): string {
    if n == 0 then "" else Column((n - 1) / 26) + [Letter((n - 1) % 26)]
  }

  /** The number of a column. */
  function ColumnNumber(s: string): nat
    requires forall i :: 0 <= i < |s| ==> IsLetter(s[i])
  {
    if s == "" then 0 else 26 * ColumnNumber(s[..|s| - 1]) + LetterValue(s[|s| - 1]) + 1
  }

  function Reverse(s: string): string {
    if s == "" then "" else Reverse(s[1..]) + [s[0]]
  }

  lemma {:induction false} ReverseSnoc(s: string, c: char)
    ensures Reverse(s + [c]) == [c] + Reverse(s)
  {
    if s == "" {
      assert s + [c] == [c] && Reverse([c]) == [c];
    } else {
      assert (s + [c])[1..] == s[1..] + [c];
      ReverseSnoc(s[1..], c);
    }
  }

  /** `_excel_col`: the loop takes a digit off the end in every step. */
  method ExcelColumn(index: nat) returns (s: string)
    ensures s == Column(index)
  {
    var letters := "";
    var n := index;
    while n > 0
      invariant Column(index) == Column(n) + Reverse(letters)
    {
      var rest, digit := (n - 1) / 26, (n - 1) % 26;
      assert Column(n) == Column(rest) + [Letter(digit)];
      ReverseSnoc(letters, Letter(digit));
      assert Column(rest) + [Letter(digit)] + Reverse(letters) == Column(rest) + ([Letter(digit)] + Reverse(letters));
      letters := letters + [Letter(digit)];
      n := rest;
    }
    return Reverse(letters);
  }

  /** Every positive number has a column, and its letters decode to it. */
  lemma {:induction false} ColumnDecodes(n: nat)
    ensures forall i :: 0 <= i < |Column(n)| ==> IsLetter(Column(n)[i])
    ensures Column(n) == "" <==> n == 0
    ensures ColumnNumber(Column(n)) == n
  {
    if n > 0 {
      ColumnDecodes((n - 1) / 26);
      assert Column(n)[..|Column(n)| - 1] == Column((n - 1) / 26);
    }
  }

  /** Every text of letters is the column of the number it decodes to. */
  lemma {:induction false} NumberEncodes(s: string)
    requires forall i :: 0 <= i < |s| ==> IsLetter(s[i])
    ensures Column(ColumnNumber(s)) == s
  {
    if s != "" {
      var front, digit := s[..|s| - 1], LetterValue(s[|s| - 1]);
      NumberEncodes(front);
      var n := ColumnNumber(s);
      assert n - 1 == 26 * ColumnNumber(front) + digit;
      assert (n - 1) / 26 == ColumnNumber(front) && (n - 1) % 26 == digit;
      assert s == front + [Letter(digit)];
    }
  }

  // ----- Cell references

  predicate IsDigit(c: char) {
    '0' <= c <= '9'
  }

  function DigitValue(c: char): nat
    requires IsDigit(c)
  {
    c as int - '0' as int
  }

  function DigitChar(d: int): char
    requires 0 <= d < 10
  {
    '0' + d as char
  }

  /** `str(n)` of a nonnegative integer. */
  function Decimal(n: nat): string {
    if n < 10 then [DigitChar(n)] else Decimal(n / 10) + [DigitChar(n % 10)]
  }

  function DecimalValue(s: string): nat
    requires forall i :: 0 <= i < |s| ==> IsDigit(s[i])
  {
    if s == "" then 0 else 10 * DecimalValue(s[..|s| - 1]) + DigitValue(s[|s| - 1])
  }

  lemma {:induction false} DecimalDecodes(n: nat)
    ensures Decimal(n) != "" && forall i :: 0 <= i < |Decimal(n)| ==> IsDigit(Decimal(n)[i])
    ensures DecimalValue(Decimal(n)) == n
  {
    if n >= 10 {
      DecimalDecodes(n / 10);
      assert Decimal(n)[..|Decimal(n)| - 1] == Decimal(n / 10);
    } else {
      assert Decimal(n)[..0] == "";
    }
  }

  /** The reference of a cell: its column letters, then its row. */
  function CellRef(row: nat, column: nat): string {
    Column(column) + Decimal(row)
  }

  /** How many letters a text starts with. */
  function LetterPrefix(s: string): (k: nat)
    ensures k <= |s|
  {
    if s == "" || !IsLetter(s[0]) then 0 else 1 + LetterPrefix(s[1..])
  }

  lemma {:induction false} LetterPrefixOf(letters: string, rest: string)
    requires forall i :: 0 <= i < |letters| ==> IsLetter(letters[i])
    requires rest == "" || !IsLetter(rest[0])
    ensures LetterPrefix(letters + rest) == |letters|
  {
    if letters == "" {
      assert letters + rest == rest;
    } else {
      assert (letters + rest)[1..] == letters[1..] + rest;
      LetterPrefixOf(letters[1..], rest);
    }
  }

  /** Reads a cell reference back into row and column. */
  function ReadRef(s: string): Option<(nat, nat)> {
    var k := LetterPrefix(s);
    var letters, digits := s[..k], s[k..];
    if (forall i :: 0 <= i < |letters| ==> IsLetter(letters[i]))
       && (forall i :: 0 <= i < |digits| ==> IsDigit(digits[i]))
    then Some((DecimalValue(digits), ColumnNumber(letters))) else None
  }

  /** A cell reference is read back as its row and column, so distinct cells have distinct references. */
  lemma CellRefReadsBack(row: nat, column: nat)
    ensures ReadRef(CellRef(row, column)) == Some((row, column))
  {
    ColumnDecodes(column);
    DecimalDecodes(row);
    LetterPrefixOf(Column(column), Decimal(row));
    var s := CellRef(row, column);
    assert s[..|Column(column)|] == Column(column) && s[|Column(column)|..] == Decimal(row);
  }

  lemma DistinctCellsDistinctRefs(row: nat, column: nat, otherRow: nat, otherColumn: nat)
    ensures CellRef(row, column) == CellRef(otherRow, otherColumn) <==> row == otherRow && column == otherColumn
  {
    CellRefReadsBack(row, column);
    CellRefReadsBack(otherRow, otherColumn);
  }

  /** The references of one row of cells. */
  method RowRefs(row: nat, columns: nat) returns (refs: seq<string>)
    ensures |refs| == columns && forall j :: 0 <= j < columns ==> refs[j] == CellRef(row, j + 1)
  {
    refs := [];
    for j := 0 to columns
      invariant |refs| == j && forall k :: 0 <= k < j ==> refs[k] == CellRef(row, k + 1)
    {
      var letters := ExcelColumn(j + 1);
      refs := refs + [letters + Decimal(row)];
    }
  }

  /** The cell references of `_sheet_xml`, row by row under the header row, and the sheet's dimension:
      no two cells of a sheet share a reference, and the dimension ends at the last cell. */
  method SheetRefs(columns: nat, rows: nat) returns (refs: seq<seq<string>>, dimension: string)
    ensures |refs| == if columns > 0 then rows + 1 else rows
    ensures forall i :: 0 <= i < |refs| ==> |refs[i]| == columns
    ensures forall i, j, k, l :: 0 <= i < |refs| && 0 <= j < columns && 0 <= k < |refs| && 0 <= l < columns ==>
              (refs[i][j] == refs[k][l] <==> i == k && j == l)
    ensures dimension == if columns > 0 then "A1:" + refs[rows][columns - 1] else "A1"
  {
    refs := [];
    var first := 2;
    if columns > 0 {
      var header := RowRefs(1, columns);
      refs := [header];
      first := 1;
    }
    for r := 2 to rows + 2
      invariant |refs| == r - first
      invariant forall i :: 0 <= i < |refs| ==> |refs[i]| == columns && forall j :: 0 <= j < columns ==>
                  refs[i][j] == CellRef(i + first, j + 1)
    {
      var cells := RowRefs(r, columns);
      refs := refs + [cells];
    }
    forall i, j, k, l | 0 <= i < |refs| && 0 <= j < columns && 0 <= k < |refs| && 0 <= l < columns
      ensures refs[i][j] == refs[k][l] <==> i == k && j == l
    {
      DistinctCellsDistinctRefs(i + first, j + 1, k + first, l + 1);
    }
    if columns > 0 {
      var lastColumn := ExcelColumn(columns);
      dimension := "A1:" + (lastColumn + Decimal(rows + 1));
    } else {
      dimension := "A1";
    }
  }

  // ----- Escaping

  /** `text.replace(c, with)` for a single character. */
  function Replace(s: string, c: char, with: string): string {
    if s == "" then "" else (if s[0] == c then with else [s[0]]) + Replace(s[1..], c, with)
  }

  const AMP := "&amp;"
  const LT := "&lt;"
  const GT := "&gt;"
  const QUOT := "&quot;"
  const APOS := "&apos;"

  /** `_escape_xml`: five replacements, one after the other, the ampersand first. */
  function EscapeXml(s: string): string {
    Replace(Replace(Replace(Replace(Replace(s, '&', AMP), '<', LT), '>', GT), '"', QUOT), '\'', APOS)
  }

  /** The predefined entity of a character, and any other character as it is. */
  function Entity(c: char): string {
    if c == '&' then AMP
    else if c == '<' then LT
    else if c == '>' then GT
    else if c == '"' then QUOT
    else if c == '\'' then APOS
    else [c]
  }

  /** Every character escaped at once. */
  function Escaped(s: string): string {
    if s == "" then "" else Entity(s[0]) + Escaped(s[1..])
  }

  lemma {:induction false} ReplaceAppend(s: string, t: string, c: char, with: string)
    ensures Replace(s + t, c, with) == Replace(s, c, with) + Replace(t, c, with)
  {
    if s == "" {
      assert s + t == t;
    } else {
      assert (s + t)[1..] == s[1..] + t;
      ReplaceAppend(s[1..], t, c, with);
    }
  }

  lemma {:induction false} ReplaceAbsent(s: string, c: char, with: string)
    requires c !in s
    ensures Replace(s, c, with) == s
  {
    if s != "" {
      assert s == [s[0]] + s[1..];
      ReplaceAbsent(s[1..], c, with);
    }
  }

  lemma EscapeAppend(s: string, t: string)
    ensures EscapeXml(s + t) == EscapeXml(s) + EscapeXml(t)
  {
    ReplaceAppend(s, t, '&', AMP);
    var s1, t1 := Replace(s, '&', AMP), Replace(t, '&', AMP);
    ReplaceAppend(s1, t1, '<', LT);
    var s2, t2 := Replace(s1, '<', LT), Replace(t1, '<', LT);
    ReplaceAppend(s2, t2, '>', GT);
    var s3, t3 := Replace(s2, '>', GT), Replace(t2, '>', GT);
    ReplaceAppend(s3, t3, '"', QUOT);
    ReplaceAppend(Replace(s3, '"', QUOT), Replace(t3, '"', QUOT), '\'', APOS);
  }

  lemma ReplaceOne(c: char, d: char, with: string)
    ensures Replace([c], d, with) == if c == d then with else [c]
  {
  }

  predicate NoMarkup(s: string) {
    '<' !in s && '>' !in s && '"' !in s && '\'' !in s
  }

  lemma EntitiesHaveNoMarkup()
    ensures NoMarkup(AMP) && NoMarkup(LT) && NoMarkup(GT) && NoMarkup(QUOT) && NoMarkup(APOS)
  {
  }

  lemma Unreplaced(s: string)
    requires NoMarkup(s)
    ensures Replace(s, '<', LT) == s && Replace(s, '>', GT) == s && Replace(s, '"', QUOT) == s
            && Replace(s, '\'', APOS) == s
  {
    ReplaceAbsent(s, '<', LT);
    ReplaceAbsent(s, '>', GT);
    ReplaceAbsent(s, '"', QUOT);
    ReplaceAbsent(s, '\'', APOS);
  }

  lemma EscapeOne(c: char)
    ensures EscapeXml([c]) == Entity(c)
  {
    hide Replace, NoMarkup, AMP, LT, GT, QUOT, APOS;
    EntitiesHaveNoMarkup();
    Unreplaced(AMP);
    Unreplaced(LT);
    Unreplaced(GT);
    Unreplaced(QUOT);
    Unreplaced(APOS);
    ReplaceOne(c, '&', AMP);
    ReplaceOne(c, '<', LT);
    ReplaceOne(c, '>', GT);
    ReplaceOne(c, '"', QUOT);
    ReplaceOne(c, '\'', APOS);
  }

  /** The five replacements are one simultaneous escape. */
  lemma {:induction false} EscapeIsSimultaneous(s: string)
    ensures EscapeXml(s) == Escaped(s)
  {
    hide EscapeXml, Entity;
    if s == "" {
      EscapeNothing();
    } else {
      assert s == [s[0]] + s[1..];
      EscapeAppend([s[0]], s[1..]);
      EscapeOne(s[0]);
      EscapeIsSimultaneous(s[1..]);
    }
  }

  lemma EscapeNothing()
    ensures EscapeXml("") == ""
  {
  }

  /** The markup characters other than the ampersand never appear in escaped text, and an ampersand
      only at the start of one of the five entities. */
  lemma {:induction false} NoRawMarkup(s: string)
    ensures forall i :: 0 <= i < |Escaped(s)| ==> Escaped(s)[i] !in {'<', '>', '"', '\''}
    ensures forall i :: 0 <= i < |Escaped(s)| && Escaped(s)[i] == '&' ==>
              exists e :: e in [AMP, LT, GT, QUOT, APOS] && e <= Escaped(s)[i..]
  {
    if s != "" {
      var head, rest := Entity(s[0]), Escaped(s[1..]);
      NoRawMarkup(s[1..]);
      EntityShape(s[0]);
      forall i | 0 <= i < |Escaped(s)| && Escaped(s)[i] == '&'
        ensures exists e :: e in [AMP, LT, GT, QUOT, APOS] && e <= Escaped(s)[i..]
      {
        if i < |head| {
          assert i == 0 && Escaped(s)[0..] == head + rest;
          assert head in [AMP, LT, GT, QUOT, APOS] && head <= Escaped(s)[i..];
        } else {
          assert Escaped(s)[i..] == rest[i - |head|..];
          assert rest[i - |head|] == '&';
        }
      }
    }
  }

  lemma EntityShape(c: char)
    ensures forall i :: 0 <= i < |Entity(c)| ==> Entity(c)[i] !in {'<', '>', '"', '\''}
    ensures forall i :: 0 < i < |Entity(c)| ==> Entity(c)[i] != '&'
    ensures Entity(c)[0] == '&' ==> Entity(c) in [AMP, LT, GT, QUOT, APOS]
    ensures |Entity(c)| > 0
  {
  }

  /** Reads the predefined entities back into their characters. */
  function Unescape(s: string): string
    decreases |s|
  {
    if s == "" then ""
    else if AMP <= s then "&" + Unescape(s[|AMP|..])
    else if LT <= s then "<" + Unescape(s[|LT|..])
    else if GT <= s then ">" + Unescape(s[|GT|..])
    else if QUOT <= s then "\"" + Unescape(s[|QUOT|..])
    else if APOS <= s then "'" + Unescape(s[|APOS|..])
    else [s[0]] + Unescape(s[1..])
  }

  lemma UnescapeEntity(c: char, rest: string)
    ensures Unescape(Entity(c) + rest) == [c] + Unescape(rest)
  {
    var s := Entity(c) + rest;
    assert s[|Entity(c)|..] == rest;
    if c !in {'&', '<', '>', '"', '\''} {
      assert s[0] == c;
      assert !(AMP <= s) && !(LT <= s) && !(GT <= s) && !(QUOT <= s) && !(APOS <= s);
    } else if c != '&' {
      assert s[1] == Entity(c)[1];
      if c == '\'' { assert s[2] == 'p'; }
    }
  }

  /** Escaping is undone by reading the predefined entities back, for every text. */
  lemma {:induction false} EscapeReadsBack(s: string)
    ensures Unescape(EscapeXml(s)) == s
  {
    hide EscapeXml, Unescape, Entity;
    EscapeIsSimultaneous(s);
    if s == "" {
      UnescapeNothing();
    } else {
      EscapeReadsBack(s[1..]);
      EscapeIsSimultaneous(s[1..]);
      UnescapeEntity(s[0], Escaped(s[1..]));
      assert s == [s[0]] + s[1..];
    }
  }

  lemma UnescapeNothing()
    ensures Unescape("") == ""
  {
  }
}

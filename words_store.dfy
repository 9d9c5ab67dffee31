/**
 * src/stores/words-store.ts after the fetch: the sheet URL and the shaping
 * of the parsed rows of the words sheet ("Sheet2"). The fetch and the CSV
 * parse are not modelled; the parsed rows are the input.
 */
module WordsStore {
  import opened Vocabulary

  /** The two sheets of the spreadsheet. */
  datatype SheetName = Sheet1 | Sheet2

  function SheetLabel(name: SheetName): (sheet: string)
    ensures |sheet| == 6
  {
    match name
    case Sheet1 => "Sheet1"
    case Sheet2 => "Sheet2"
  }

  const UrlPrefix: string := "https://docs.google.com/spreadsheets/d/"
  const UrlMiddle: string := "/gviz/tq?tqx=out:csv&sheet="

  /** `getGoogleSheetUrl`: the CSV export URL of one sheet of a spreadsheet. */
  function GoogleSheetUrl(spreadsheetId: string, sheetName: SheetName): (url: string)
    ensures |url| == |UrlPrefix| + |spreadsheetId| + |UrlMiddle| + 6
    ensures url[..|UrlPrefix|] == UrlPrefix
    ensures url[|url| - 6..] == SheetLabel(sheetName)
  {
    UrlPrefix + spreadsheetId + UrlMiddle + SheetLabel(sheetName)
  }

  /** The second of four concatenated strings can be cut back out by position. */
  lemma SecondPart(a: string, b: string, c: string, d: string)
    ensures (a + b + c + d)[|a|..|a| + |b|] == b
  {
    assert a + b + c + d == a + (b + (c + d));
  }

  /** Different spreadsheets or different sheets never share a URL. */
  lemma GoogleSheetUrlInjective(id1: string, n1: SheetName, id2: string, n2: SheetName)
    requires GoogleSheetUrl(id1, n1) == GoogleSheetUrl(id2, n2)
    ensures id1 == id2 && n1 == n2
  {
    SecondPart(UrlPrefix, id1, UrlMiddle, SheetLabel(n1));
    SecondPart(UrlPrefix, id2, UrlMiddle, SheetLabel(n2));
    assert SheetLabel(n1) == SheetLabel(n2);
  }

  /** A row of the words sheet (`SheetTwoEntry`). */
  datatype WordRow = WordRow(topic: string, german: string, english: string, speechPart: string)

  /** `{ ...entry, status }`: a row with every column copied and a status added. */
  datatype SheetWord = SheetWord(topic: string, german: string, english: string, speechPart: string, status: Status)

  function Tag(row: WordRow): SheetWord {
    SheetWord(row.topic, row.german, row.english, row.speechPart, ToPractice)
  }

  /**
   * `getWords(topic)`: the rows of that topic, in sheet order, each tagged
   * ToPractice. It takes no speech part, so the speech part a caller has
   * chosen never narrows the result.
   */
  function GetWords(rows: seq<WordRow>, topic: string): (words: seq<SheetWord>)
    ensures |words| <= |rows|
    ensures forall w :: w in words ==> w.status == ToPractice && w.topic == topic
    ensures forall w :: w in words ==> exists i :: 0 <= i < |rows| && rows[i].topic == topic && w == Tag(rows[i])
    ensures forall i :: 0 <= i < |rows| && rows[i].topic == topic ==> Tag(rows[i]) in words
  {
    if rows == [] then []
    else (if rows[0].topic == topic then [Tag(rows[0])] else []) + GetWords(rows[1..], topic)
  }

  /** Filtering keeps sheet order: the words of two blocks of rows come block by block. */
  lemma {:induction false} GetWordsConcat(a: seq<WordRow>, b: seq<WordRow>, topic: string)
    ensures GetWords(a + b, topic) == GetWords(a, topic) + GetWords(b, topic)
  {
    if a != [] {
      assert (a + b)[1..] == a[1..] + b;
      GetWordsConcat(a[1..], b, topic);
    } else {
      assert a + b == b;
    }
  }

  // ---------------------------------------------------------------------
  // Speech parts: Array.from(new Set(entries.map(entry => entry.speech_part)))
  // ---------------------------------------------------------------------

  predicate NoDuplicates(xs: seq<string>) {
    forall i, j :: 0 <= i < j < |xs| ==> xs[i] != xs[j]
  }

  /** The position of the first occurrence of `x` in `xs`. */
  function FirstIndex(xs: seq<string>, x: string): (k: nat)
    requires x in xs
    ensures k < |xs| && xs[k] == x
    ensures forall m :: 0 <= m < k ==> xs[m] != x
  {
    if xs[0] == x then 0 else 1 + FirstIndex(xs[1..], x)
  }

  /**
   * A JavaScript `Set` filled in order and read back: each value once, at
   * the place where it first occurs.
   */
  function Distinct(xs: seq<string>): (r: seq<string>)
    ensures NoDuplicates(r)
    ensures forall x :: x in r <==> x in xs
    decreases |xs|
  {
    if xs == [] then []
    else
      var d := Distinct(xs[..|xs| - 1]);
      if xs[|xs| - 1] in d then d else d + [xs[|xs| - 1]]
  }

  lemma FirstIndexExtend(xs: seq<string>, y: string, x: string)
    requires x in xs
    ensures FirstIndex(xs + [y], x) == FirstIndex(xs, x)
  {
    var k := FirstIndex(xs, x);
    assert (xs + [y])[k] == x;
  }

  /** The distinct values come in the order of their first occurrences. */
  lemma {:induction false} DistinctFirstOccurrenceOrder(xs: seq<string>)
    ensures forall i, j :: 0 <= i < j < |Distinct(xs)| ==>
      FirstIndex(xs, Distinct(xs)[i]) < FirstIndex(xs, Distinct(xs)[j])
    decreases |xs|
  {
    if xs != [] {
      var init, last := xs[..|xs| - 1], xs[|xs| - 1];
      assert xs == init + [last];
      var d := Distinct(init);
      DistinctFirstOccurrenceOrder(init);
      forall x | x in d
        ensures FirstIndex(xs, x) == FirstIndex(init, x)
      {
        FirstIndexExtend(init, last, x);
      }
      if last !in d {
        assert last !in init;
        var r := d + [last];
        assert FirstIndex(xs, last) == |init|;
        forall i, j | 0 <= i < j < |r|
          ensures FirstIndex(xs, r[i]) < FirstIndex(xs, r[j])
        {
          if j < |d| {
            assert r[i] == d[i] && r[j] == d[j];
          } else {
            assert r[i] == d[i] && r[i] in init;
          }
        }
      }
    }
  }

  /** `entries.map(entry => entry.speech_part)`. */
  function SpeechPartColumn(rows: seq<WordRow>): (column: seq<string>)
    ensures |column| == |rows|
    ensures forall i :: 0 <= i < |rows| ==> column[i] == rows[i].speechPart
  {
    if rows == [] then [] else [rows[0].speechPart] + SpeechPartColumn(rows[1..])
  }

  /** `getSpeechParts` (over all rows: it takes no topic). */
  function SpeechParts(rows: seq<WordRow>): seq<string> {
    Distinct(SpeechPartColumn(rows))
  }

  /**
   * `getSpeechParts` lists no speech part twice, lists every row's speech
   * part and nothing else, in order of first occurrence in the sheet.
   */
  lemma SpeechPartsSpec(rows: seq<WordRow>)
    ensures NoDuplicates(SpeechParts(rows))
    ensures forall i :: 0 <= i < |rows| ==> rows[i].speechPart in SpeechParts(rows)
    ensures forall p :: p in SpeechParts(rows) ==> exists i :: 0 <= i < |rows| && rows[i].speechPart == p
    ensures forall i, j :: 0 <= i < j < |SpeechParts(rows)| ==>
      FirstIndex(SpeechPartColumn(rows), SpeechParts(rows)[i]) < FirstIndex(SpeechPartColumn(rows), SpeechParts(rows)[j])
  {
    var column := SpeechPartColumn(rows);
    DistinctFirstOccurrenceOrder(column);
    forall p | p in SpeechParts(rows)
      ensures exists i :: 0 <= i < |rows| && rows[i].speechPart == p
    {
      var k := FirstIndex(column, p);
      assert rows[k].speechPart == p;
    }
    forall i | 0 <= i < |rows|
      ensures rows[i].speechPart in SpeechParts(rows)
    {
      assert column[i] == rows[i].speechPart;
    }
  }
}

/**
 * The admin labels of the content blocks in juscms/pages/models.py: `Row`
 * and `Chunk` choose their `__str__` text from which of the HTML id and
 * HTML class fields are filled in.
 */
module PageContent {
  import opened Wrappers

  /** The fields a `Row` or `Chunk` label reads: its primary key (`None` before the first save) and its HTML id and class. */
  datatype Block = Block(id: Option<nat>, htmlIds: string, htmlClass: string)

  /** The decimal digits of `n`, as Python's `"%s" % n` writes them: no leading zero except for 0 itself. */
  function Decimal(n: nat): (s: string)
    ensures |s| > 0
    ensures forall i :: 0 <= i < |s| ==> '0' <= s[i] <= '9'
    ensures s[0] == '0' ==> s == "0"
  {
    var digit := ['0' + (n % 10) as char];
    if n < 10 then digit else Decimal(n / 10) + digit
  }

  /** The number a string of decimal digits denotes, most significant digit first. */
  function DigitsValue(s: string): nat
    requires forall i :: 0 <= i < |s| ==> '0' <= s[i] <= '9'
  {
    if s == [] then 0 else DigitsValue(s[..|s| - 1]) * 10 + (s[|s| - 1] - '0') as nat
  }

  /** Reading the written digits back gives the number: `Decimal` loses nothing. */
  lemma {:induction false} DecimalValue(n: nat)
    ensures DigitsValue(Decimal(n)) == n
  {
    if n >= 10 {
      var s := Decimal(n);
      assert s[..|s| - 1] == Decimal(n / 10);
      DecimalValue(n / 10);
    }
  }

  /** `"%s" % self.id`: the number, or `None` for a block that was never saved. */
  function IdText(id: Option<nat>): (s: string)
    ensures |s| > 0
    ensures id.Some? <==> '0' <= s[0] <= '9'
    ensures id.None? ==> s == "None"
    ensures id.Some? ==> (forall i :: 0 <= i < |s| ==> '0' <= s[i] <= '9') && DigitsValue(s) == id.value
  {
    match id
    case None => "None"
    case Some(n) => DecimalValue(n); Decimal(n)
  }

  /**
   * The shared shape of the two `__str__` methods: `kind` names the block in
   * three of the four cases, `classKind` in the class-only case.
   */
  function Label(kind: string, classKind: string, b: Block): string
  {
    if b.htmlIds == "" && b.htmlClass == "" then kind + " ID: " + IdText(b.id)
    else if b.htmlIds != "" && b.htmlClass == "" then kind + " - Id: " + b.htmlIds
    else if b.htmlClass != "" && b.htmlIds == "" then classKind + " - Class: " + b.htmlClass
    else kind + " - Id: " + b.htmlIds + ", Class: " + b.htmlClass
  }

  /**
   * A label names its block kind, and which of its four forms it takes tells
   * exactly which of the HTML id and class are filled in.
   */
  lemma LabelCases(kind: string, b: Block)
    ensures var r := Label(kind, kind, b);
      && kind <= r
      && ((b.htmlIds == "" && b.htmlClass == "") <==> kind + " ID: " <= r)
      && ((b.htmlIds != "" && b.htmlClass == "") <==> r == kind + " - Id: " + b.htmlIds)
      && ((b.htmlIds == "" && b.htmlClass != "") <==> kind + " - Class: " <= r)
      && (b.htmlIds != "" ==> kind + " - Id: " + b.htmlIds <= r)
      && (b.htmlClass != "" ==> |r| >= |b.htmlClass| && r[|r| - |b.htmlClass|..] == b.htmlClass)
  {
    var r := Label(kind, kind, b);
    var n := |kind|;
    var bare, withId, withClass := kind + " ID: ", kind + " - Id: ", kind + " - Class: ";
    assert bare[n + 1] == 'I' && withId[n + 1] == '-' && withClass[n + 1] == '-';
    assert withId[n + 3] == 'I' && withClass[n + 3] == 'C';
    if b.htmlIds == "" && b.htmlClass == "" {
      assert r == bare + IdText(b.id);
      assert r[..|bare|] == bare;
      assert r[n + 1] == 'I';
    } else if b.htmlIds != "" && b.htmlClass == "" {
      assert r == withId + b.htmlIds;
      assert r[n + 1] == '-' && r[n + 3] == 'I';
    } else if b.htmlClass != "" && b.htmlIds == "" {
      assert r == withClass + b.htmlClass;
      assert r[..|withClass|] == withClass;
      assert r[n + 1] == '-' && r[n + 3] == 'C';
    } else {
      assert r == (withId + b.htmlIds) + (", Class: " + b.htmlClass);
      assert r[..|withId + b.htmlIds|] == withId + b.htmlIds;
      assert r[n + 1] == '-' && r[n + 3] == 'I';
      assert |r| > |withId + b.htmlIds|;
    }
  }

  /** `Row.__str__`: every row label names its kind; `LabelCases` gives its four forms. */
  function RowLabel(row: Block): (r: string)
    ensures "Row" <= r
  {
    LabelCases("Row", row);
    Label("Row", "Row", row)
  }

  /** `Chunk.__str__` as written: its class-only case carries the `Row` prefix. */
  function ChunkLabelAsWritten(chunk: Block): string
  {
    Label("Chunk", "Row", chunk)
  }

  /** Any chunk with only a class is labelled as if it were a row: its label is a row's label. */
  lemma ChunkClassOnlyLabelledAsRow(chunk: Block)
    requires chunk.htmlIds == "" && chunk.htmlClass != ""
    ensures !("Chunk" <= ChunkLabelAsWritten(chunk))
    ensures ChunkLabelAsWritten(chunk) == RowLabel(chunk)
  {
    assert ChunkLabelAsWritten(chunk)[0] == 'R';
  }

  /**
   * `Chunk.__str__` with the class-only case labelled as a chunk, as its
   * other three cases are: every label names its kind.
   */
  function ChunkLabel(chunk: Block): (r: string)
    ensures "Chunk" <= r
  {
    LabelCases("Chunk", chunk);
    Label("Chunk", "Chunk", chunk)
  }

  /** The corrected chunk label differs from the written one only in the class-only case. */
  lemma ChunkLabelCorrected(chunk: Block)
    ensures ChunkLabel(chunk) == ChunkLabelAsWritten(chunk) <==> !(chunk.htmlIds == "" && chunk.htmlClass != "")
  {
    LabelCases("Chunk", chunk);
    if chunk.htmlIds == "" && chunk.htmlClass != "" {
      assert ChunkLabel(chunk)[0] != ChunkLabelAsWritten(chunk)[0];
    }
  }
}

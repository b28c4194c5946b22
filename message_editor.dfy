/**
 * The composer's arithmetic (src/components/MessageEditor.jsx): the character
 * count, the SMS segment count and the placeholder that "Insert Variable" appends.
 * JavaScript measures strings in UTF-16 code units, so both counts use
 * JsText.Utf16Length.
 */
module MessageEditor {
  import JsText

  /** Characters of one SMS segment, as the composer assumes. */
  const SegmentSize: nat := 160

  /** `template.length`. */
  function CharCount(template: string): (n: nat)
    ensures |template| <= n <= 2 * |template|
    ensures (forall i :: 0 <= i < |template| ==> template[i] as int <= 0xFFFF) ==> n == |template|
  {
    JsText.Utf16Length(template)
  }

  /** `Math.ceil(template.length / 160) || 1`. */
  function SegmentCount(template: string): (k: nat)
    ensures k >= 1
    ensures CharCount(template) == 0 ==> k == 1
    ensures CharCount(template) > 0 ==> (k - 1) * SegmentSize < CharCount(template) <= k * SegmentSize
  {
    var len := CharCount(template);
    var ceil := (len + SegmentSize - 1) / SegmentSize;
    if ceil == 0 then 1 else ceil
  }

  /** 160 characters fill one segment; the 161st opens a second one. */
  lemma SegmentBoundary(a: string, b: string)
    requires |a| == 160 && |b| == 161
    requires forall i :: 0 <= i < |b| ==> b[i] as int <= 0xFFFF
    requires forall i :: 0 <= i < |a| ==> a[i] as int <= 0xFFFF
    ensures SegmentCount(a) == 1 && SegmentCount(b) == 2
  {
  }

  /** A longer template never needs fewer segments. */
  lemma SegmentCountMonotone(a: string, b: string)
    ensures SegmentCount(a) <= SegmentCount(a + b)
  {
    JsText.Utf16LengthAppend(a, b);
  }

  /** The text "Insert Variable" appends for a column: a space and the column's placeholder. */
  function VariableSuffix(variable: string): string {
    " {{" + JsText.Trim(variable) + "}}"
  }

  /** `prev + \` {{${variable.trim()}}}\``: what "Insert Variable" makes of the template. */
  function InsertVariable(prev: string, variable: string): (next: string)
    ensures |next| == |prev| + 5 + |JsText.Trim(variable)|
    ensures next[..|prev|] == prev
    ensures next[|prev|..] == " {{" + JsText.Trim(variable) + "}}"
  {
    prev + VariableSuffix(variable)
  }

  /** Inserting a variable grows the displayed character count by the placeholder's length. */
  lemma InsertVariableCharCount(prev: string, variable: string)
    ensures CharCount(InsertVariable(prev, variable))
            == CharCount(prev) + 5 + JsText.Utf16Length(JsText.Trim(variable))
  {
    var t := JsText.Trim(variable);
    var open, close := " {{", "}}";
    assert JsText.Utf16Length(open) == 3 && JsText.Utf16Length(close) == 2;
    JsText.Utf16LengthAppend(prev, VariableSuffix(variable));
    JsText.Utf16LengthAppend(open + t, close);
    JsText.Utf16LengthAppend(open, t);
  }
}

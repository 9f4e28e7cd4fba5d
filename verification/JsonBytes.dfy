/** JSON documents as UTF-8: JSON.stringify never prints a lone surrogate, so its output
    survives TextEncoder and TextDecoder. */
module JsonBytes {
  import opened Wrappers
  import opened Unicode
  import opened JsonNumbers
  import opened JsonStrings
  import opened Json

  lemma Ascii1(u: CodeUnit)
    requires u < 0x80
    ensures WellFormed([u])
  {
    AsciiWellFormed([u]);
  }

  lemma {:induction false} PrintWellFormed(v: Value)
    requires IsJson(v)
    ensures WellFormed(Print(v))
    decreases v, 0
  {
    hide WellFormed;
    match v
    case Num(x) =>
      FloatLength(x);
      AsciiWellFormed(PrintFloat(x));
    case Str(s) => QuoteLength(s);
    case Arr(items) =>
      ItemsWellFormed(items);
      Ascii1(OPEN_ARRAY);
      Ascii1(CLOSE_ARRAY);
      WellFormedConcat([OPEN_ARRAY], PrintItems(items));
      WellFormedConcat([OPEN_ARRAY] + PrintItems(items), [CLOSE_ARRAY]);
    case Obj(fields) =>
      FieldsWellFormed(fields);
      Ascii1(OPEN_OBJECT);
      Ascii1(CLOSE_OBJECT);
      WellFormedConcat([OPEN_OBJECT], PrintFields(fields));
      WellFormedConcat([OPEN_OBJECT] + PrintFields(fields), [CLOSE_OBJECT]);
    case Bool(b) => AsciiWellFormed(if b then TRUE else FALSE);
    case Null => AsciiWellFormed(NULL);
  }

  lemma {:induction false} ItemsWellFormed(items: seq<Value>)
    requires forall i :: 0 <= i < |items| ==> IsJson(items[i])
    ensures WellFormed(PrintItems(items))
    decreases items, 1
  {
    hide Print;
    if items == [] {
    } else {
      PrintWellFormed(items[0]);
      if |items| > 1 {
        ItemsWellFormed(items[1..]);
        Ascii1(COMMA);
        WellFormedConcat(Print(items[0]), [COMMA]);
        WellFormedConcat(Print(items[0]) + [COMMA], PrintItems(items[1..]));
      }
    }
  }

  lemma {:induction false} FieldWellFormed(f: Field)
    requires IsJson(f.value)
    ensures WellFormed(PrintField(f))
    decreases f, 0
  {
    hide Print, Quote;
    QuoteLength(f.key);
    PrintWellFormed(f.value);
    Ascii1(COLON);
    WellFormedConcat(Quote(f.key), [COLON]);
    WellFormedConcat(Quote(f.key) + [COLON], Print(f.value));
  }

  lemma {:induction false} FieldsWellFormed(fields: seq<Field>)
    requires forall i :: 0 <= i < |fields| ==> IsJson(fields[i].value)
    ensures WellFormed(PrintFields(fields))
    decreases fields, 1
  {
    hide PrintField;
    if fields == [] {
    } else {
      FieldWellFormed(fields[0]);
      if |fields| > 1 {
        FieldsWellFormed(fields[1..]);
        Ascii1(COMMA);
        WellFormedConcat(PrintField(fields[0]), [COMMA]);
        WellFormedConcat(PrintField(fields[0]) + [COMMA], PrintFields(fields[1..]));
      }
    }
  }

  /** new TextEncoder().encode(JSON.stringify(v)) */
  function DocumentBytes(v: Value): seq<Byte> { Bytes(Print(v)) }

  /** JSON.parse(new TextDecoder().decode(bytes)) */
  function ReadDocument(b: seq<Byte>): Option<Value> {
    var text :- TextOf(b);
    Parse(text)
  }

  lemma DocumentRoundTrip(v: Value)
    requires IsJson(v)
    ensures ReadDocument(DocumentBytes(v)) == Some(v)
  {
    PrintWellFormed(v);
    TextRoundTrip(Print(v));
    RoundTrip(v);
  }
}

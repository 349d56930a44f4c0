/** The literal-expression and style builders of the report generator
    (`lit`, `lit_str`, `lit_bool`, `lit_int`, `lit_double`, `solid_color`,
    `position`, `minimal_vc_objects`, `hidden_vc_objects`), and a decoder for
    the literal tokens they write, against which each builder is proved. */
module Literals {
  import opened Json

  // ---------------------------------------------------------------------
  // Decimal text of an integer, as Python's f"{n}" writes it
  // ---------------------------------------------------------------------

  predicate IsDigit(c: char)
  {
    '0' <= c <= '9'
  }

  function DigitChar(d: nat): (c: char)
    requires d < 10
    ensures IsDigit(c)
  {
    "0123456789"[d]
  }

  function DigitValue(c: char): (d: nat)
    requires IsDigit(c)
    ensures d < 10 && DigitChar(d) == c
  {
    (c as int - '0' as int) as nat
  }

  /** The decimal digits of `n`, most significant first, with no leading zero. */
  function Digits(n: nat): (s: string)
    ensures 0 < |s| && forall i :: 0 <= i < |s| ==> IsDigit(s[i])
    ensures n < 10 <==> |s| == 1
    ensures |s| > 1 ==> s[0] != '0'
    decreases n
  {
    if n < 10 then [DigitChar(n)] else Digits(n / 10) + [DigitChar(n % 10)]
  }

  /** `f"{n}"` for a Python int. */
  function DecimalString(n: int): string
  {
    if n < 0 then "-" + Digits(-n) else Digits(n)
  }

  /** Reads a non-empty run of decimal digits. */
  function ParseDigits(s: string): Option<nat>
    decreases |s|
  {
    if s == [] || !IsDigit(s[|s| - 1]) then None
    else if |s| == 1 then Some(DigitValue(s[0]))
    else match ParseDigits(s[..|s| - 1])
      case Some(p) => Some(p * 10 + DigitValue(s[|s| - 1]))
      case None => None
  }

  /** Reads an optionally negative decimal integer. */
  function ParseDecimal(s: string): Option<int>
  {
    if |s| > 0 && s[0] == '-' then
      match ParseDigits(s[1..])
      case Some(p) => Some(0 - p as int)
      case None => None
    else match ParseDigits(s)
      case Some(p) => Some(p)
      case None => None
  }

  lemma {:induction false} DigitsRoundTrip(n: nat)
    ensures ParseDigits(Digits(n)) == Some(n)
    decreases n
  {
    if n >= 10 {
      DigitsRoundTrip(n / 10);
      var s := Digits(n);
      assert s[..|s| - 1] == Digits(n / 10);
      assert s[|s| - 1] == DigitChar(n % 10);
      assert (n / 10) * 10 + n % 10 == n;
    }
  }

  /** Reading back the decimal text of any integer gives that integer. */
  lemma DecimalRoundTrip(n: int)
    ensures ParseDecimal(DecimalString(n)) == Some(n)
  {
    var s := DecimalString(n);
    if n < 0 {
      DigitsRoundTrip(-n);
      assert s[0] == '-' && s[1..] == Digits(-n);
    } else {
      DigitsRoundTrip(n);
      assert IsDigit(s[0]);
    }
  }

  // ---------------------------------------------------------------------
  // Literal expressions
  // ---------------------------------------------------------------------

  /** The reading of a literal token: a quoted string, a boolean keyword,
      an integer with the `L` marker or a number with the `D` marker. */
  datatype Token = TextToken(s: string) | BoolToken(b: bool) | IntToken(n: int) | DoubleToken(n: int)

  /** The four kinds are told apart by the token's last character. */
  function DecodeToken(t: string): Option<Token>
  {
    if t == [] then None
    else
      var last, body := t[|t| - 1], t[..|t| - 1];
      if last == 'L' then
        (match ParseDecimal(body)
         case Some(n) => Some(IntToken(n))
         case None => None)
      else if last == 'D' then
        (match ParseDecimal(body)
         case Some(n) => Some(DoubleToken(n))
         case None => None)
      else if last == '\'' then
        (if |t| >= 2 && t[0] == '\'' then Some(TextToken(t[1..|t| - 1])) else None)
      else if t == "true" then Some(BoolToken(true))
      else if t == "false" then Some(BoolToken(false))
      else None
  }

  /** The `Value` held by an expression `{"expr": {"Literal": {"Value": v}}}`. */
  function LiteralValue(e: Value): Option<Value>
  {
    Field(Field(Get(e, "expr"), "Literal"), "Value")
  }

  /** The token of a literal expression whose value is a string. */
  function Decode(e: Value): Option<Token>
  {
    match LiteralValue(e)
    case Some(Str(t)) => DecodeToken(t)
    case _ => None
  }

  /** `lit(val)`: wraps a pre-encoded value in a literal expression. */
  function Lit(val: Value): (e: Value)
    ensures LiteralValue(e) == Some(val)
  {
    Obj(map["expr" := Obj(map["Literal" := Obj(map["Value" := val])])])
  }

  /** `lit_str(s)`: the text between single quotes, embedded quotes left as they are. */
  function LitStr(s: string): Value
  {
    Lit(Str("'" + s + "'"))
  }

  /** `lit_bool(b)`: the keyword `true` or `false`. */
  function LitBool(b: bool): Value
  {
    Lit(Str(if b then "true" else "false"))
  }

  /** `lit_int(n)`: the decimal text of `n` followed by `L`. */
  function LitInt(n: int): Value
  {
    Lit(Str(DecimalString(n) + "L"))
  }

  /** `lit_double(n)`: the decimal text of `n` followed by `D`. */
  function LitDouble(n: int): Value
  {
    Lit(Str(DecimalString(n) + "D"))
  }

  /** `solid_color(c)`: `{"solid": {"color": lit_str(c)}}`. */
  function SolidColor(c: string): Value
  {
    Obj(map["solid" := Obj(map["color" := LitStr(c)])])
  }

  /** A string literal is the text between single quotes, nothing escaped;
      read with the outer quotes as its only delimiters, it gives back the
      text given. */
  lemma LitStrDecodes(s: string)
    ensures LiteralValue(LitStr(s)) == Some(Str("'" + s + "'"))
    ensures Decode(LitStr(s)) == Some(TextToken(s))
  {
    var t := "'" + s + "'";
    assert t[1..|t| - 1] == s;
  }

  /** A boolean literal is the keyword `true` or `false` and reads back as the boolean given. */
  lemma LitBoolDecodes(b: bool)
    ensures LiteralValue(LitBool(b)) == Some(Str(if b then "true" else "false"))
    ensures Decode(LitBool(b)) == Some(BoolToken(b))
  {
  }

  /** An integer literal reads back as the integer given. */
  lemma LitIntDecodes(n: int)
    ensures Decode(LitInt(n)) == Some(IntToken(n))
  {
    var t := DecimalString(n) + "L";
    DecimalRoundTrip(n);
    assert t[..|t| - 1] == DecimalString(n);
  }

  /** A double literal reads back as the number given. */
  lemma LitDoubleDecodes(n: int)
    ensures Decode(LitDouble(n)) == Some(DoubleToken(n))
  {
    var t := DecimalString(n) + "D";
    DecimalRoundTrip(n);
    assert t[..|t| - 1] == DecimalString(n);
  }

  /** The colour of a solid fill reads back as the colour given. */
  lemma SolidColorDecodes(c: string)
    ensures Field(Get(SolidColor(c), "solid"), "color") == Some(LitStr(c))
    ensures Decode(LitStr(c)) == Some(TextToken(c))
  {
    LitStrDecodes(c);
  }

  // ---------------------------------------------------------------------
  // Positions
  // ---------------------------------------------------------------------

  /** A placement: the five numbers a visual container and its layout share. */
  datatype Rect = Rect(x: int, y: int, width: int, height: int, z: int)

  function NumAt(v: Value, key: string): Option<int>
  {
    if v.Obj? && key in v.fields && v.fields[key].Num? then Some(v.fields[key].n) else None
  }

  /** Reads x, y, width, height and z off a record that holds them as numbers. */
  function RectOf(v: Value): Option<Rect>
  {
    var x, y, w, h, z := NumAt(v, "x"), NumAt(v, "y"), NumAt(v, "width"), NumAt(v, "height"), NumAt(v, "z");
    if x.Some? && y.Some? && w.Some? && h.Some? && z.Some? then Some(Rect(x.value, y.value, w.value, h.value, z.value)) else None
  }

  /** `position(x, y, z, w, h, tab)`. */
  function Position(x: int, y: int, z: int, w: int, h: int, tab: int := 0): (r: Value)
    ensures RectOf(r) == Some(Rect(x, y, w, h, z))
    ensures NumAt(r, "tabOrder") == Some(tab)
  {
    Obj(map["x" := Num(x), "y" := Num(y), "z" := Num(z), "width" := Num(w), "height" := Num(h), "tabOrder" := Num(tab)])
  }

  // ---------------------------------------------------------------------
  // Style blocks
  // ---------------------------------------------------------------------

  /** The style block `key` holds one property record whose `show` is `lit_bool(false)`. */
  predicate Hides(objects: Value, key: string)
  {
    match Get(objects, key)
    case Some(Arr(rs)) =>
      |rs| == 1 && (match Field(Get(rs[0], "properties"), "show")
                    case Some(e) => Decode(e) == Some(BoolToken(false))
                    case None => false)
    case _ => false
  }

  /** `{"properties": {"show": lit_bool(false)}}` in a one-element list. */
  function HiddenBlock(): (r: Value)
    ensures r.Arr? && |r.items| == 1
  {
    Arr([Obj(map["properties" := Obj(map["show" := LitBool(false)])])])
  }

  /** `minimal_vc_objects()`: hides the title and sets nothing else. */
  function MinimalVcObjects(): (r: Value)
    ensures r.Obj? && r.fields.Keys == {"title"}
    ensures Get(r, "title") == Some(HiddenBlock())
  {
    Obj(map["title" := HiddenBlock()])
  }

  /** `hidden_vc_objects()`: hides the title, background, border and visual header. */
  function HiddenVcObjects(): (r: Value)
    ensures r.Obj? && r.fields.Keys == {"title", "background", "border", "visualHeader"}
    ensures forall k :: k in r.fields ==> r.fields[k] == HiddenBlock()
  {
    Obj(map["title" := HiddenBlock(), "background" := HiddenBlock(), "border" := HiddenBlock(), "visualHeader" := HiddenBlock()])
  }

  /** A block built by `HiddenBlock` hides what it styles. */
  lemma HiddenBlockHides(objects: Value, key: string)
    requires Get(objects, key) == Some(HiddenBlock())
    ensures Hides(objects, key)
  {
    LitBoolDecodes(false);
  }

  /** Both style presets hide every block they set. */
  lemma VcObjectsHide()
    ensures Hides(MinimalVcObjects(), "title")
    ensures forall k :: k in HiddenVcObjects().fields ==> Hides(HiddenVcObjects(), k)
  {
    HiddenBlockHides(MinimalVcObjects(), "title");
    forall k | k in HiddenVcObjects().fields
      ensures Hides(HiddenVcObjects(), k)
    {
      HiddenBlockHides(HiddenVcObjects(), k);
    }
  }
}

/** The canonical JSON text of the audit log: Python values are rendered to JSON
    values with sorted keys, printed without spaces, and read back. */
module CanonicalJson {
  import opened Wrappers
  import opened Text
  import opened Decimals

  datatype Json =
    | Null
    | Bool(b: bool)
    | Num(n: int)
    | Str(s: string)
    | Arr(items: seq<Json>)
    | Obj(members: seq<Member>)

  datatype Member = Member(key: string, value: Json)

  /** The Python values that reach `canonical_json`. A dict is its list of items. */
  datatype Py =
    | PyNone
    | PyBool(b: bool)
    | PyInt(n: int)
    | PyStr(s: string)
    | PyDecimal(d: Decimal)
    | PyTime(t: Zoned)
    | PyList(items: seq<Py>)
    | PyDict(members: seq<PyItem>)

  datatype PyItem = PyItem(key: string, value: Py)

  // --------------------------------------------------------------- rendering

  /** Leaves become JSON leaves (`_json_default` for decimals and datetimes);
      dicts keep their order. */
  function Render(p: Py): Json {
    match p
    case PyNone => Null
    case PyBool(b) => Bool(b)
    case PyInt(n) => Num(n)
    case PyStr(s) => Str(s)
    case PyDecimal(d) => Str(FixedText(d))
    case PyTime(t) => Str(IsoText(AsUtc(t).instant))
    case PyList(items) => Arr(RenderItems(items))
    case PyDict(members) => Obj(RenderMembers(members))
  }

  function RenderItems(items: seq<Py>): (r: seq<Json>)
    ensures |r| == |items| && forall i :: 0 <= i < |items| ==> r[i] == Render(items[i])
  {
    if items == [] then [] else [Render(items[0])] + RenderItems(items[1..])
  }

  function RenderMembers(members: seq<PyItem>): (r: seq<Member>)
    ensures |r| == |members|
    ensures forall i :: 0 <= i < |members| ==> r[i] == Member(members[i].key, Render(members[i].value))
  {
    if members == [] then []
    else [Member(members[0].key, Render(members[0].value))] + RenderMembers(members[1..])
  }

  /** `sort_keys=True`, at every level. */
  function Sorted(j: Json): Json {
    match j
    case Arr(items) => Arr(SortedItems(items))
    case Obj(members) => Obj(SortByKey(SortedValues(members)))
    case _ => j
  }

  function SortedItems(items: seq<Json>): (r: seq<Json>)
    ensures |r| == |items| && forall i :: 0 <= i < |items| ==> r[i] == Sorted(items[i])
  {
    if items == [] then [] else [Sorted(items[0])] + SortedItems(items[1..])
  }

  function SortedValues(members: seq<Member>): (r: seq<Member>)
    ensures |r| == |members|
    ensures forall i :: 0 <= i < |members| ==> r[i] == Member(members[i].key, Sorted(members[i].value))
  {
    if members == [] then []
    else [Member(members[0].key, Sorted(members[0].value))] + SortedValues(members[1..])
  }

  function SortByKey(members: seq<Member>): (r: seq<Member>)
    ensures |r| == |members|
  {
    if members == [] then [] else Insert(members[0], SortByKey(members[1..]))
  }

  function Insert(m: Member, members: seq<Member>): (r: seq<Member>)
    ensures |r| == |members| + 1
  {
    if members == [] then [m]
    else if Less(members[0].key, m.key) then [members[0]] + Insert(m, members[1..])
    else [m] + members
  }

  /** `json.loads(canonical_json(p))`, as `LoadsCanonical` below shows. */
  function Normalize(p: Py): Json { Sorted(Render(p)) }

  // ---------------------------------------------------------------- printing

  function HexDigit(d: nat): (c: char)
    requires d < 16
  {
    if d < 10 then DigitChar(d) else ('a' as int + d - 10) as char
  }

  /** Escapes of `json.dumps` with `ensure_ascii=False` (section 7 of RFC 8259). */
  function EscapeChar(c: char): string {
    if c == '"' then "\\\""
    else if c == '\\' then "\\\\"
    else if c == '\n' then "\\n"
    else if c == '\r' then "\\r"
    else if c == '\t' then "\\t"
    else if c as int == 8 then "\\b"
    else if c as int == 12 then "\\f"
    else if c as int < 32 then "\\u00" + [HexDigit(c as int / 16), HexDigit(c as int % 16)]
    else [c]
  }

  function Escape(s: string): string {
    if s == "" then "" else EscapeChar(s[0]) + Escape(s[1..])
  }

  function Quote(s: string): string { "\"" + Escape(s) + "\"" }

  /** `json.dumps` with separators `(",", ":")`. */
  function Print(j: Json): string {
    match j
    case Null => "null"
    case Bool(b) => if b then "true" else "false"
    case Num(n) => IntText(n)
    case Str(s) => Quote(s)
    case Arr(items) => "[" + PrintItems(items) + "]"
    case Obj(members) => "{" + PrintMembers(members) + "}"
  }

  function PrintItems(items: seq<Json>): string {
    if items == [] then ""
    else if |items| == 1 then Print(items[0])
    else Print(items[0]) + "," + PrintItems(items[1..])
  }

  function PrintMembers(members: seq<Member>): string {
    if members == [] then ""
    else
      var first := Quote(members[0].key) + ":" + Print(members[0].value);
      if |members| == 1 then first else first + "," + PrintMembers(members[1..])
  }

  /** `canonical_json(p)` */
  function CanonicalText(p: Py): string { Print(Normalize(p)) }

  // ----------------------------------------------------------------- reading

  datatype Parsed<+T> = Rejected | Read(value: T, rest: string)

  function HexValue(c: char): Option<nat> {
    if IsDigit(c) then Some(c as int - '0' as int)
    else if 'a' <= c <= 'f' then Some(c as int - 'a' as int + 10)
    else if 'A' <= c <= 'F' then Some(c as int - 'A' as int + 10)
    else None
  }

  /** Body of a `\u` escape; surrogate halves are rejected. */
  function ReadHex(s: string): (r: Parsed<char>)
    ensures r.Read? ==> |r.rest| < |s|
  {
    if |s| < 4 then Rejected
    else
      match (HexValue(s[0]), HexValue(s[1]), HexValue(s[2]), HexValue(s[3]))
      case (Some(a), Some(b), Some(c), Some(d)) =>
        var n := 4096 * a + 256 * b + 16 * c + d;
        if n < 0xD800 || 0xE000 <= n < 0x10000 then Read(n as char, s[4..]) else Rejected
      case _ => Rejected
  }

  /** One escape, after its backslash (section 7 of RFC 8259). */
  function ReadEscape(s: string): (r: Parsed<char>)
    ensures r.Read? ==> |r.rest| < |s|
  {
    if s == "" then Rejected
    else match s[0]
      case '"' => Read('"', s[1..])
      case '\\' => Read('\\', s[1..])
      case '/' => Read('/', s[1..])
      case 'b' => Read(8 as char, s[1..])
      case 'f' => Read(12 as char, s[1..])
      case 'n' => Read('\n', s[1..])
      case 'r' => Read('\r', s[1..])
      case 't' => Read('\t', s[1..])
      case 'u' => ReadHex(s[1..])
      case _ => Rejected
  }

  /** A string, after its opening quote. */
  function ReadString(s: string): (r: Parsed<string>)
    ensures r.Read? ==> |r.rest| < |s|
    decreases |s|
  {
    if s == "" then Rejected
    else if s[0] == '"' then Read("", s[1..])
    else if s[0] as int < 32 then Rejected
    else
      var first := if s[0] == '\\' then ReadEscape(s[1..]) else Read(s[0], s[1..]);
      if first.Rejected? then Rejected
      else
        var more := ReadString(first.rest);
        if more.Rejected? then Rejected else Read([first.value] + more.value, more.rest)
  }

  /** An integer without leading zeros. */
  function ReadNumber(s: string): (r: Parsed<Json>)
    ensures r.Read? ==> |r.rest| < |s|
  {
    var start := if s != "" && s[0] == '-' then 1 else 0;
    var k := DigitRun(s[start..]);
    var digits, rest := s[start..][..k], s[start..][k..];
    if k == 0 || (digits[0] == '0' && k > 1) then Rejected
    else if rest != "" && rest[0] in ".eE" then Rejected
    else Read(Num(if start == 1 then 0 - NatValue(digits) else NatValue(digits)), rest)
  }

  function ReadWord(s: string, word: string, value: Json): (r: Parsed<Json>)
    requires word != ""
    ensures r.Read? ==> |r.rest| < |s|
  {
    if |word| <= |s| && s[..|word|] == word then Read(value, s[|word|..]) else Rejected
  }

  function ReadValue(s: string): (r: Parsed<Json>)
    ensures r.Read? ==> |r.rest| < |s|
    decreases |s|, 0
  {
    if s == "" then Rejected
    else match s[0]
      case '"' =>
        var t := ReadString(s[1..]);
        if t.Rejected? then Rejected else Read(Str(t.value), t.rest)
      case '[' =>
        if |s| > 1 && s[1] == ']' then Read(Arr([]), s[2..])
        else
          var t := ReadItems(s[1..]);
          if t.Rejected? then Rejected else Read(Arr(t.value), t.rest)
      case '{' =>
        if |s| > 1 && s[1] == '}' then Read(Obj([]), s[2..])
        else
          var t := ReadMembers(s[1..]);
          if t.Rejected? then Rejected else Read(Obj(t.value), t.rest)
      case 'n' => ReadWord(s, "null", Null)
      case 't' => ReadWord(s, "true", Bool(true))
      case 'f' => ReadWord(s, "false", Bool(false))
      case _ => ReadNumber(s)
  }

  /** Array elements up to and including the closing bracket. */
  function ReadItems(s: string): (r: Parsed<seq<Json>>)
    ensures r.Read? ==> |r.rest| < |s|
    decreases |s|, 1
  {
    var first := ReadValue(s);
    if first.Rejected? || first.rest == "" then Rejected
    else if first.rest[0] == ']' then Read([first.value], first.rest[1..])
    else if first.rest[0] == ',' then
      var more := ReadItems(first.rest[1..]);
      if more.Rejected? then Rejected else Read([first.value] + more.value, more.rest)
    else Rejected
  }

  /** Object members up to and including the closing brace (section 4 of RFC 8259). */
  function ReadMembers(s: string): (r: Parsed<seq<Member>>)
    ensures r.Read? ==> |r.rest| < |s|
    decreases |s|, 1
  {
    if s == "" || s[0] != '"' then Rejected
    else
      var key := ReadString(s[1..]);
      if key.Rejected? || key.rest == "" || key.rest[0] != ':' then Rejected
      else
        var first := ReadValue(key.rest[1..]);
        if first.Rejected? || first.rest == "" then Rejected
        else if first.rest[0] == '}' then Read([Member(key.value, first.value)], first.rest[1..])
        else if first.rest[0] == ',' then
          var more := ReadMembers(first.rest[1..]);
          if more.Rejected? then Rejected
          else Read([Member(key.value, first.value)] + more.value, more.rest)
        else Rejected
  }

  /** `json.loads(text)` */
  function Loads(text: string): Option<Json> {
    match ReadValue(text)
    case Read(value, rest) => if rest == "" then Some(value) else None
    case Rejected => None
  }
}

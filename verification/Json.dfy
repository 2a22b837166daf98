/** JSON values, the two serialisations the program uses, and its decoder. */
module Json {
  import opened Prelude
  import opened Order

  /** Objects keep their insertion order, as Python dicts do.  Floats are left out. */
  datatype Json =
    | Null
    | Bool(b: bool)
    | Int(n: int)
    | Str(s: string)
    | Arr(items: seq<Json>)
    | Obj(members: seq<(string, Json)>)

  type Members = seq<(string, Json)>

  function Keys(ms: Members): set<string> {
    set i | 0 <= i < |ms| :: ms[i].0
  }

  /** Dict keys do not repeat. */
  predicate DistinctKeys(ms: Members) {
    forall i, j :: 0 <= i < j < |ms| ==> ms[i].0 != ms[j].0
  }

  predicate WellFormed(v: Json) {
    match v
    case Arr(items) => forall i :: 0 <= i < |items| ==> WellFormed(items[i])
    case Obj(ms) => DistinctKeys(ms) && forall i :: 0 <= i < |ms| ==> WellFormed(ms[i].1)
    case _ => true
  }

  /** The position of a key, or the length if it is absent. */
  function Find(ms: Members, k: string): (i: nat)
    ensures i <= |ms| && (i < |ms| ==> ms[i].0 == k)
    ensures i < |ms| <==> k in Keys(ms)
    ensures forall j :: 0 <= j < i ==> ms[j].0 != k
  {
    if ms == [] then 0
    else if ms[0].0 == k then 0
    else
      var i := Find(ms[1..], k);
      assert forall j :: 0 < j < |ms| ==> ms[j] == ms[1..][j - 1];
      1 + i
  }

  function Get(v: Json, k: string): Option<Json> {
    if v.Obj? && Find(v.members, k) < |v.members| then Some(v.members[Find(v.members, k)].1) else None
  }

  /** Equal, except that the order of object members does not count. */
  predicate Same(v: Json, w: Json) {
    match (v, w)
    case (Arr(xs), Arr(ys)) => |xs| == |ys| && forall i :: 0 <= i < |xs| ==> Same(xs[i], ys[i])
    case (Obj(ms), Obj(ns)) =>
      && Keys(ms) == Keys(ns)
      && forall i :: 0 <= i < |ms| ==> Find(ns, ms[i].0) < |ns| && Same(ms[i].1, ns[Find(ns, ms[i].0)].1)
    case _ => v == w
  }

  // ---- characters

  function HexDigit(n: nat): char
    requires n < 16
  {
    "0123456789abcdef"[n]
  }

  function Hex4(n: nat): string
    requires n < 0x10000
  {
    [HexDigit(n / 4096), HexDigit(n / 256 % 16), HexDigit(n / 16 % 16), HexDigit(n % 16)]
  }

  function HexValue(c: char): Option<nat> {
    if '0' <= c <= '9' then Some(c as int - '0' as int)
    else if 'a' <= c <= 'f' then Some(c as int - 'a' as int + 10)
    else if 'A' <= c <= 'F' then Some(c as int - 'A' as int + 10)
    else None
  }

  /** The two-character escapes. */
  function ShortEscape(c: char): Option<char> {
    if c == '\"' then Some('\"') else if c == '\\' then Some('\\')
    else if c == '\n' then Some('n') else if c == '\r' then Some('r') else if c == '\t' then Some('t')
    else if c == '\U{0c}' then Some('f') else if c == '\U{08}' then Some('b')
    else None
  }

  /** One character inside a string, in pure ASCII. */
  function Escape(c: char): string {
    if ShortEscape(c).Some? then ['\\', ShortEscape(c).value]
    else if ' ' <= c <= '~' then [c]
    else if c as int < 0x10000 then "\\u" + Hex4(c as int)
    else
      var n := c as int - 0x10000;
      "\\u" + Hex4(0xd800 + n / 1024) + "\\u" + Hex4(0xdc00 + n % 1024)
  }

  function EscapeAll(s: string): string {
    if s == [] then [] else Escape(s[0]) + EscapeAll(s[1..])
  }

  function Quoted(s: string): string {
    "\"" + EscapeAll(s) + "\""
  }

  // ---- numbers

  function Digits(n: nat): string {
    if n < 10 then [HexDigit(n)] else Digits(n / 10) + [HexDigit(n % 10)]
  }

  function IntText(n: int): string {
    if n < 0 then "-" + Digits(-n) else Digits(n)
  }

  // ---- serialising

  /** The separators between items and after keys. */
  datatype Style = Style(comma: string, colon: string)

  const COMPACT := Style(",", ":")
  const SPACED := Style(", ", ": ")

  function Text(v: Json, st: Style): string
    decreases v, if v.Arr? then |v.items| + 1 else if v.Obj? then |v.members| + 1 else 0
  {
    match v
    case Null => "null"
    case Bool(b) => if b then "true" else "false"
    case Int(n) => IntText(n)
    case Str(s) => Quoted(s)
    case Arr(items) => "[" + ItemsText(v, 0, st) + "]"
    case Obj(ms) => "{" + MembersText(v, 0, st) + "}"
  }

  function ItemsText(v: Json, i: nat, st: Style): string
    requires v.Arr? && i <= |v.items|
    decreases v, |v.items| - i
  {
    if i == |v.items| then []
    else Text(v.items[i], st) + if i + 1 == |v.items| then [] else st.comma + ItemsText(v, i + 1, st)
  }

  function MembersText(v: Json, i: nat, st: Style): string
    requires v.Obj? && i <= |v.members|
    decreases v, |v.members| - i
  {
    if i == |v.members| then []
    else Quoted(v.members[i].0) + st.colon + Text(v.members[i].1, st)
         + if i + 1 == |v.members| then [] else st.comma + MembersText(v, i + 1, st)
  }

  /** The value with the members of every object sorted by key. */
  function SortKeys(v: Json): Json {
    match v
    case Arr(items) => Arr(seq(|items|, i requires 0 <= i < |items| => SortKeys(items[i])))
    case Obj(ms) =>
      var ks := Sorted(Keys(ms));
      assert forall i :: 0 <= i < |ks| ==> ks[i] in ks;
      Obj(seq(|ks|, i requires 0 <= i < |ks| => (ks[i], SortKeys(ms[Find(ms, ks[i])].1))))
    case _ => v
  }

  /** The text that is signed. */
  function Canonical(v: Json): string {
    Text(SortKeys(v), COMPACT)
  }

  /** The text that is sent: `json.dumps` with its defaults. */
  function Dumps(v: Json): string {
    Text(v, SPACED)
  }

  // ---- decoding

  predicate IsBlank(c: char) {
    c == ' ' || c == '\t' || c == '\n' || c == '\r'
  }

  function Skip(s: string): (r: string)
    ensures |r| <= |s| && (r != [] ==> !IsBlank(r[0]))
  {
    if s != [] && IsBlank(s[0]) then Skip(s[1..]) else s
  }

  function Starts(s: string, w: string): bool {
    |w| <= |s| && s[..|w|] == w
  }

  /** Four hexadecimal digits at the front. */
  function Code(s: string): Option<nat> {
    if |s| < 4 then None
    else
      var a, b, c, d := HexValue(s[0]), HexValue(s[1]), HexValue(s[2]), HexValue(s[3]);
      if a == None || b == None || c == None || d == None then None
      else Some(4096 * a.value + 256 * b.value + 16 * c.value + d.value)
  }

  function Unescape(c: char): Option<char> {
    if c == '\"' then Some('\"') else if c == '\\' then Some('\\') else if c == '/' then Some('/')
    else if c == 'n' then Some('\n') else if c == 'r' then Some('\r') else if c == 't' then Some('\t')
    else if c == 'f' then Some('\U{0c}') else if c == 'b' then Some('\U{08}')
    else None
  }

  /** One character of a string body and what follows it.  Strings are made of
      scalar values, so a surrogate that is not part of a pair is an error. */
  function OneChar(s: string): (r: Option<(char, string)>)
    ensures r.Some? ==> |r.value.1| < |s|
  {
    if s == [] || s[0] == '\"' || s[0] < ' ' then None
    else if s[0] != '\\' then Some((s[0], s[1..]))
    else if |s| < 2 then None
    else if s[1] != 'u' then
      (match Unescape(s[1]) case None => None case Some(c) => Some((c, s[2..])))
    else
      match Code(s[2..])
      case None => None
      case Some(n) =>
        if n < 0xd800 || 0xe000 <= n < 0x10000 then Some((n as char, s[6..]))
        else if 0xd800 <= n < 0xdc00 && Starts(s[6..], "\\u") then
          (match Code(s[8..])
           case None => None
           case Some(m) =>
             if 0xdc00 <= m < 0xe000
             then Some(((0x10000 + (n - 0xd800) * 1024 + (m - 0xdc00)) as char, s[12..]))
             else None)
        else None
  }

  /** A string body up to its closing quote. */
  function Body(s: string): (r: Option<(string, string)>)
    ensures r.Some? ==> |r.value.1| < |s|
  {
    if s != [] && s[0] == '\"' then Some(([], s[1..]))
    else
      match OneChar(s)
      case None => None
      case Some((c, rest)) =>
        match Body(rest)
        case None => None
        case Some((cs, rest')) => Some(([c] + cs, rest'))
  }

  predicate IsDigit(c: char) {
    '0' <= c <= '9'
  }

  /** The longest run of digits at the front. */
  function DigitRun(s: string): (k: nat)
    ensures k <= |s| && (forall i :: 0 <= i < k ==> IsDigit(s[i])) && (k < |s| ==> !IsDigit(s[k]))
  {
    if s != [] && IsDigit(s[0]) then
      var k := DigitRun(s[1..]);
      assert forall i :: 0 < i < k + 1 ==> s[i] == s[1..][i - 1];
      assert k + 1 < |s| ==> s[k + 1] == s[1..][k];
      1 + k
    else 0
  }

  function Value(ds: string): nat
    requires forall i :: 0 <= i < |ds| ==> IsDigit(ds[i])
  {
    if ds == [] then 0
    else
      var last := ds[|ds| - 1];
      assert IsDigit(last);
      10 * Value(ds[..|ds| - 1]) + (last as int - '0' as int)
  }

  /** An unsigned integer: a zero, or a run of digits that does not start with one.
      A fraction or an exponent is refused. */
  function Natural(s: string): (r: Option<(nat, string)>)
    ensures r.Some? ==> |r.value.1| < |s|
  {
    if s == [] || !IsDigit(s[0]) then None
    else
      var k := if s[0] == '0' then 1 else DigitRun(s);
      if k < |s| && (s[k] == '.' || s[k] == 'e' || s[k] == 'E') then None
      else Some((Value(s[..k]), s[k..]))
  }

  function Number(s: string): (r: Option<(int, string)>)
    ensures r.Some? ==> |r.value.1| < |s|
  {
    var minus := s != [] && s[0] == '-';
    match Natural(if minus then s[1..] else s)
    case None => None
    case Some((n, rest)) => Some((if minus then -(n as int) else n as int, rest))
  }

  /** A later duplicate of a key replaces the value and keeps the place. */
  function Put(ms: Members, k: string, v: Json): Members {
    var i := Find(ms, k);
    if i < |ms| then ms[i := (k, v)] else ms + [(k, v)]
  }

  /** A value at the front of `s`, which starts with no blank. */
  function Parse(s: string): (r: Option<(Json, string)>)
    ensures r.Some? ==> |r.value.1| < |s|
    decreases |s|, 0
  {
    if s == [] then None
    else if s[0] == '\"' then
      (match Body(s[1..]) case None => None case Some((t, rest)) => Some((Str(t), rest)))
    else if s[0] == '{' then
      var t := Skip(s[1..]);
      if t != [] && t[0] == '}' then Some((Obj([]), t[1..])) else ParseMembers(t, [])
    else if s[0] == '[' then
      var t := Skip(s[1..]);
      if t != [] && t[0] == ']' then Some((Arr([]), t[1..])) else ParseItems(t, [])
    else if Starts(s, "null") then Some((Null, s[4..]))
    else if Starts(s, "true") then Some((Bool(true), s[4..]))
    else if Starts(s, "false") then Some((Bool(false), s[5..]))
    else
      match Number(s) case None => None case Some((n, rest)) => Some((Int(n), rest))
  }

  function ParseItems(s: string, done: seq<Json>): (r: Option<(Json, string)>)
    ensures r.Some? ==> |r.value.1| < |s|
    decreases |s|, 1
  {
    match Parse(s)
    case None => None
    case Some((v, rest)) =>
      var t := Skip(rest);
      if t == [] then None
      else if t[0] == ']' then Some((Arr(done + [v]), t[1..]))
      else if t[0] == ',' then ParseItems(Skip(t[1..]), done + [v])
      else None
  }

  function ParseMembers(s: string, done: Members): (r: Option<(Json, string)>)
    ensures r.Some? ==> |r.value.1| < |s|
    decreases |s|, 1
  {
    if s == [] || s[0] != '\"' then None
    else
      match Body(s[1..])
      case None => None
      case Some((k, rest)) =>
        var t := Skip(rest);
        if t == [] || t[0] != ':' then None
        else
          match Parse(Skip(t[1..]))
          case None => None
          case Some((v, rest')) =>
            var u := Skip(rest');
            if u == [] then None
            else if u[0] == '}' then Some((Obj(Put(done, k, v)), u[1..]))
            else if u[0] == ',' then ParseMembers(Skip(u[1..]), Put(done, k, v))
            else None
  }

  /** `json.loads`: one value between blanks, and nothing else. */
  function Loads(s: string): Option<Json> {
    match Parse(Skip(s))
    case None => None
    case Some((v, rest)) => if Skip(rest) == [] then Some(v) else None
  }
}

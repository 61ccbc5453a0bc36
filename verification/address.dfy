/** to_socket_address: turning what a user writes for an address into the
    (host, port) pair the engines are given. */
module SocketAddress {
  import opened Errors

  /** A Python value that can sit inside the argument. Anything that is not
      None, a bool, an int or a str is described by what str(), truthiness
      and int() make of it. */
  datatype Scalar =
    | NoneValue
    | BoolValue(b: bool)
    | IntValue(i: int)
    | StrValue(s: string)
    | Other(text: string, truthy: bool, asInt: Result<int>)

  /** The argument itself. */
  datatype Arg =
    | Plain(value: Scalar)
    | Tuple(items: seq<Scalar>)
    | List(items: seq<Scalar>)
    | Dict(entries: map<string, Scalar>)

  /** What the function returns: `host, port`, converted in the sequence
      case and handed through untouched in the dict case. */
  datatype Pair = Pair(host: Scalar, port: Scalar)

  predicate Truthy(v: Scalar) {
    match v
    case NoneValue => false
    case BoolValue(b) => b
    case IntValue(i) => i != 0
    case StrValue(s) => s != ""
    case Other(_, t, _) => t
  }

  function DigitChar(d: nat): char
    requires d < 10
  {
    "0123456789"[d]
  }

  function DigitValue(c: char): nat
    requires IsDigit(c)
  {
    (c as int - '0' as int) as nat
  }

  predicate IsDigit(c: char) {
    '0' <= c <= '9'
  }

  /** The decimal digits of `n`, most significant first, no leading zero. */
  function Digits(n: nat): (s: string)
    ensures |s| > 0 && forall i :: 0 <= i < |s| ==> IsDigit(s[i])
    ensures |s| > 1 ==> s[0] != '0'
    decreases n
  {
    if n < 10 then [DigitChar(n)] else Digits(n / 10) + [DigitChar(n % 10)]
  }

  /** str() of an int. */
  function Decimal(i: int): string {
    if i < 0 then "-" + Digits(-i) else Digits(i)
  }

  /** str() */
  function Str(v: Scalar): string {
    match v
    case NoneValue => "None"
    case BoolValue(b) => if b then "True" else "False"
    case IntValue(i) => Decimal(i)
    case StrValue(s) => s
    case Other(text, _, _) => text
  }

  /** The ASCII white space int() skips around a number: the space and
      tab to carriage return. The separators 0x1c-0x1f, which str.isspace()
      also accepts, are not skipped. */
  predicate IsSpace(c: char) {
    c == ' ' || '\t' <= c <= '\r'
  }

  /** Leading and trailing white space removed. */
  function Strip(s: string): (t: string)
    ensures |t| <= |s|
    ensures t != [] ==> !IsSpace(t[0]) && !IsSpace(t[|t| - 1])
    ensures (s != [] && !IsSpace(s[0]) && !IsSpace(s[|s| - 1])) ==> t == s
    decreases |s|
  {
    if s == [] then s
    else if IsSpace(s[0]) then Strip(s[1..])
    else if IsSpace(s[|s| - 1]) then Strip(s[..|s| - 1])
    else s
  }

  /** Decimal digits, where single underscores may separate two digits. */
  predicate Grouped(s: string) {
    && s != [] && IsDigit(s[0]) && IsDigit(s[|s| - 1])
    && (forall i :: 0 <= i < |s| ==> IsDigit(s[i]) || s[i] == '_')
    && (forall i :: 0 <= i < |s| - 1 ==> !(s[i] == '_' && s[i + 1] == '_'))
  }

  /** The number a run of digits and underscores spells, underscores skipped. */
  function DigitsValue(s: string): nat
    requires forall i :: 0 <= i < |s| ==> IsDigit(s[i]) || s[i] == '_'
    decreases |s|
  {
    if s == [] then 0
    else if s[|s| - 1] == '_' then DigitsValue(s[..|s| - 1])
    else DigitsValue(s[..|s| - 1]) * 10 + DigitValue(s[|s| - 1])
  }

  /** int() of a str in base 10: surrounding white space allowed, an
      optional sign, then grouped digits; anything else raises ValueError. */
  function ParseInt(s: string): (r: Result<int>)
    ensures r.Err? ==> r.error == ValueError
  {
    var t := Strip(s);
    var negative := t != [] && t[0] == '-';
    var body := if t != [] && (t[0] == '-' || t[0] == '+') then t[1..] else t;
    if !Grouped(body) then Err(ValueError)
    else Ok(if negative then -(DigitsValue(body) as int) else DigitsValue(body))
  }

  /** A file separator before the digits is not white space to int(). */
  lemma ParseRefusesSeparator()
    ensures ParseInt("\U{1c}80") == Err(ValueError)
  {
    ParseRejectsStrayCharacter("\U{1c}80", 0);
  }

  /** Stripping only removes white space: every other character survives. */
  lemma {:induction false} StripKeeps(s: string, i: nat)
    requires i < |s| && !IsSpace(s[i])
    ensures s[i] in Strip(s)
    decreases |s|
  {
    if IsSpace(s[0]) {
      assert s[1..][i - 1] == s[i];
      StripKeeps(s[1..], i - 1);
    } else if IsSpace(s[|s| - 1]) {
      assert s[..|s| - 1][i] == s[i];
      StripKeeps(s[..|s| - 1], i);
    }
  }

  /** Text holding anything but white space, a sign, digits and underscores
      is not a number. */
  lemma ParseRejectsStrayCharacter(s: string, i: nat)
    requires i < |s| && !IsSpace(s[i]) && !IsDigit(s[i]) && s[i] !in "_+-"
    ensures ParseInt(s) == Err(ValueError)
  {
    StripKeeps(s, i);
    var t := Strip(s);
    var j :| 0 <= j < |t| && t[j] == s[i];
    if t[0] == '-' || t[0] == '+' {
      assert j > 0 && t[1..][j - 1] == s[i];
    }
  }

  /** int() */
  function Int(v: Scalar): (r: Result<int>)
    ensures v.IntValue? ==> r == Ok(v.i)
    ensures v.NoneValue? ==> r == Err(TypeError)
  {
    match v
    case NoneValue => Err(TypeError)
    case BoolValue(b) => Ok(if b then 1 else 0)
    case IntValue(i) => Ok(i)
    case StrValue(s) => ParseInt(s)
    case Other(_, _, n) => n
  }

  /** `a or b` */
  function Or(a: Scalar, b: Scalar): Scalar {
    if Truthy(a) then a else b
  }

  /** dict.get(key, default) */
  function Get(d: map<string, Scalar>, key: string, default: Scalar): Scalar {
    if key in d then d[key] else default
  }

  /** str.split(":") */
  function Split(s: string, sep: char): (parts: seq<string>)
    ensures |parts| > 0
    ensures forall i :: 0 <= i < |parts| ==> sep !in parts[i]
    ensures Join(parts, sep) == s
    decreases |s|
  {
    if s == [] then [""]
    else
      var rest := Split(s[1..], sep);
      if s[0] == sep then [""] + rest
      else [[s[0]] + rest[0]] + rest[1..]
  }

  /** sep.join(parts), the inverse of Split. */
  function Join(parts: seq<string>, sep: char): string
    decreases |parts|
  {
    if parts == [] then ""
    else if |parts| == 1 then parts[0]
    else parts[0] + [sep] + Join(parts[1..], sep)
  }

  /** The keys the dict branch looks the host up under, highest precedence
      first. */
  const HostKeys: seq<string> := ["address", "addr", "host", "ip"]

  /** The value under the first of `keys` present in `d`, else `default`. */
  function FirstPresent(d: map<string, Scalar>, keys: seq<string>, default: Scalar): (v: Scalar)
    ensures (forall j :: 0 <= j < |keys| ==> keys[j] !in d) ==> v == default
    ensures forall j :: 0 <= j < |keys| && keys[j] in d && (forall k :: 0 <= k < j ==> keys[k] !in d) ==> v == d[keys[j]]
    decreases |keys|
  {
    if keys == [] then default
    else if keys[0] in d then d[keys[0]]
    else FirstPresent(d, keys[1..], default)
  }

  /** to_socket_address(obj) */
  function ToSocketAddress(obj: Arg): (r: Result<Pair>)
    ensures obj.Plain? && !obj.value.StrValue? ==> r == Err(TypeError)
    ensures (obj.Tuple? || obj.List?) && |obj.items| != 2 ==> r == Err(TypeError)
    ensures (obj.Tuple? || obj.List?) && |obj.items| == 2 && r.Ok? ==>
              r.value.host.StrValue? && r.value.port.IntValue?
    ensures obj.Dict? ==> && r.Ok?
                          && r.value.host == FirstPresent(obj.entries, HostKeys, StrValue(""))
                          && r.value.port == (if "port" in obj.entries then obj.entries["port"] else IntValue(0))
  {
    match obj
    case Tuple(items) => FromPair(items)
    case List(items) => FromPair(items)
    case Dict(d) =>
      Ok(Pair(Get(d, "address", Get(d, "addr", Get(d, "host", Get(d, "ip", StrValue(""))))),
              Get(d, "port", IntValue(0))))
    case Plain(v) =>
      if v.StrValue? then FromPair(SplitValues(v.s)) else Err(TypeError)
  }

  /** The parts of a split string, as the list of str the recursive call gets. */
  function SplitValues(s: string): (items: seq<Scalar>)
    ensures |items| == |Split(s, ':')|
    ensures forall i :: 0 <= i < |items| ==> items[i] == StrValue(Split(s, ':')[i])
  {
    var parts := Split(s, ':');
    seq(|parts|, i requires 0 <= i < |parts| => StrValue(parts[i]))
  }

  /** The tuple/list branch: `str(obj[0] or "")`, `int(obj[1] or 0)`; any
      other length is an unknown type. */
  function FromPair(items: seq<Scalar>): (r: Result<Pair>)
    ensures |items| != 2 ==> r == Err(TypeError)
    ensures |items| == 2 && r.Ok? ==> r.value.host.StrValue? && r.value.port.IntValue?
    ensures |items| == 2 && r.Ok? && !Truthy(items[0]) ==> r.value.host == StrValue("")
    ensures |items| == 2 && r.Ok? && Truthy(items[0]) ==> r.value.host == StrValue(Str(items[0]))
    ensures |items| == 2 && !Truthy(items[1]) ==> r.Ok? && r.value.port == IntValue(0)
    ensures |items| == 2 && Truthy(items[1]) ==> (r.Ok? <==> Int(items[1]).Ok?)
    ensures |items| == 2 && Truthy(items[1]) && r.Ok? ==> r.value.port == IntValue(Int(items[1]).value)
  {
    if |items| != 2 then Err(TypeError)
    else
      var port := Int(Or(items[1], IntValue(0)));
      if port.Err? then Err(port.error)
      else Ok(Pair(StrValue(Str(Or(items[0], StrValue("")))), IntValue(port.value)))
  }

  /** How often `c` occurs in `s`. */
  function Occurrences(s: string, c: char): nat
    decreases |s|
  {
    if s == [] then 0 else (if s[0] == c then 1 else 0) + Occurrences(s[1..], c)
  }

  /** Splitting yields one more part than there are separators. */
  lemma {:induction false} SplitCount(s: string, sep: char)
    ensures |Split(s, sep)| == Occurrences(s, sep) + 1
    decreases |s|
  {
    if s != [] {
      SplitCount(s[1..], sep);
    }
  }

  /** Joining parts that hold no separator and splitting again gives the
      parts back. */
  lemma {:induction false} SplitJoin(parts: seq<string>, sep: char)
    requires parts != [] && forall i :: 0 <= i < |parts| ==> sep !in parts[i]
    ensures Split(Join(parts, sep), sep) == parts
    decreases |parts|, |parts[0]|
  {
    var p := parts[0];
    if p == [] {
      if |parts| > 1 {
        SplitJoin(parts[1..], sep);
        assert Join(parts, sep) == [sep] + Join(parts[1..], sep);
      }
    } else {
      var parts' := [p[1..]] + parts[1..];
      SplitJoin(parts', sep);
      var j := Join(parts, sep);
      assert j == [p[0]] + Join(parts', sep) by {
        assert p == [p[0]] + p[1..];
        if |parts| > 1 {
          assert parts'[1..] == parts[1..];
        }
      }
      assert j[1..] == Join(parts', sep);
      assert p == [p[0]] + parts'[0];
      assert parts == [[p[0]] + parts'[0]] + parts'[1..];
    }
  }

  /** The digit characters spell the number they were made from. */
  lemma {:induction false} DigitsRoundTrip(n: nat)
    ensures Grouped(Digits(n)) && DigitsValue(Digits(n)) == n
    decreases n
  {
    var s := Digits(n);
    var d := n % 10;
    assert DigitValue(DigitChar(d)) == d by {
      assert "0123456789"[d] as int == '0' as int + d;
    }
    if n >= 10 {
      DigitsRoundTrip(n / 10);
      assert s[..|s| - 1] == Digits(n / 10);
    }
  }

  /** int(str(i)) == i */
  lemma ParseDecimal(i: int)
    ensures ParseInt(Decimal(i)) == Ok(i)
  {
    var n := if i < 0 then -i else i;
    DigitsRoundTrip(n);
    var ds := Digits(n);
    var s := Decimal(i);
    assert !IsSpace(ds[0]) && !IsSpace(ds[|ds| - 1]);
    if i < 0 {
      assert s == "-" + ds && s[1..] == ds && s[|s| - 1] == ds[|ds| - 1];
    } else {
      assert s == ds;
    }
    assert Strip(s) == s;
  }

  /** A string is split into exactly two parts only when it holds exactly
      one colon; any other string is refused with TypeError. */
  lemma StringNeedsOneColon(s: string)
    ensures Occurrences(s, ':') != 1 <==> ToSocketAddress(Plain(StrValue(s))) == Err(TypeError)
  {
    SplitCount(s, ':');
  }

  /** "host:port" with a colon-free host and a port written by str() comes
      back as the pair it was written from. */
  lemma StringRoundTrip(host: string, port: int)
    requires ':' !in host
    ensures ToSocketAddress(Plain(StrValue(host + ":" + Decimal(port)))) == Ok(Pair(StrValue(host), IntValue(port)))
  {
    var d := Decimal(port);
    assert ':' !in d by {
      var n := if port < 0 then -port else port;
      assert forall i :: 0 <= i < |Digits(n)| ==> Digits(n)[i] != ':';
    }
    assert Join([host, d], ':') == host + ":" + d;
    SplitJoin([host, d], ':');
    ParseDecimal(port);
  }

  /** A (str, int) pair passes through unchanged. */
  lemma PairPassesThrough(host: string, port: int)
    ensures ToSocketAddress(Tuple([StrValue(host), IntValue(port)])) == Ok(Pair(StrValue(host), IntValue(port)))
    ensures ToSocketAddress(List([StrValue(host), IntValue(port)])) == Ok(Pair(StrValue(host), IntValue(port)))
  {
  }
}

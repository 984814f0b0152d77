/**
 * Values that cross the Flutter method and event channels, and the few
 * operations every platform plugin applies to them: looking a key up in an
 * argument or payload map, the Kotlin string template "${v}", Kotlin's
 * `String.toIntOrNull()`, and the event envelope `{tag -> name} + data`.
 */
module Channel {

  datatype Option<T> = None | Some(value: T)

  /** A value on a channel. A `Real` is a Dart double; it carries the text its
      `toString()` gives, which the model does not compute. `Other` stands for
      any value of a type the model does not break down (a byte array, say) and
      likewise carries its text. */
  datatype Value =
    | Null
    | Bool(b: bool)
    | Int(i: int)
    | Str(s: string)
    | Items(elems: seq<Value>)
    | Dict(entries: map<string, Value>)
    | Real(r: real, text: string)
    | Other(shown: string)

  /** A string-keyed map as Kotlin's `Map<String, Any>` or Swift's `[String: Any]`. */
  type Payload = map<string, Value>

  /** `m[key]`: a missing key reads as null, exactly like a present null. */
  function Get(m: Payload, key: string): Value
  {
    if key in m then m[key] else Null
  }

  /** `m[key] as? String` */
  function StringOpt(m: Payload, key: string): Option<string>
  {
    match Get(m, key)
    case Str(s) => Some(s)
    case _ => None
  }

  /** `m[key] as? String ?: default` */
  function StringOr(m: Payload, key: string, default: string): string
  {
    match StringOpt(m, key)
    case Some(s) => s
    case None => default
  }

  // ---------------------------------------------------------------------------
  // Decimal text of integers (Kotlin's Int/Long toString)

  function DigitChar(d: nat): char
    requires d < 10
  {
    "0123456789"[d]
  }

  predicate IsDigit(c: char)
  {
    '0' <= c <= '9'
  }

  function DigitValue(c: char): nat
    requires IsDigit(c)
  {
    (c as int - '0' as int) as nat
  }

  /** The digits of n, most significant first, without leading zeros. */
  function Digits(n: nat): string
  {
    if n < 10 then [DigitChar(n)] else Digits(n / 10) + [DigitChar(n % 10)]
  }

  function Decimal(i: int): string
  {
    if i < 0 then "-" + Digits(-i) else Digits(i)
  }

  predicate AllDigits(s: string)
  {
    forall k :: 0 <= k < |s| ==> IsDigit(s[k])
  }

  /** The number a string of decimal digits stands for. */
  function DigitsValue(s: string): nat
    requires AllDigits(s)
  {
    if s == [] then 0 else DigitsValue(s[..|s| - 1]) * 10 + DigitValue(s[|s| - 1])
  }

  const IntMin: int := -0x8000_0000
  const IntMax: int := 0x7FFF_FFFF

  /** Kotlin's `String.toIntOrNull()` over ASCII digits: an optional leading
      '-' or '+', then one or more digits, and the value must fit a 32-bit Int. */
  function ParseInt(s: string): (r: Option<int>)
    ensures r.Some? ==> IntMin <= r.value <= IntMax
    ensures r.Some? ==> |s| > 0 && (IsDigit(s[0]) || s[0] == '-' || s[0] == '+')
  {
    if |s| == 0 then None
    else
      var signed := s[0] == '-' || s[0] == '+';
      var body := if signed then s[1..] else s;
      if body == [] || !AllDigits(body) then None
      else
        var v := if s[0] == '-' then -(DigitsValue(body) as int) else DigitsValue(body) as int;
        if IntMin <= v <= IntMax then Some(v) else None
  }

  lemma {:induction false} DigitsAreDigits(n: nat)
    ensures |Digits(n)| > 0 && AllDigits(Digits(n)) && DigitsValue(Digits(n)) == n
  {
    if n >= 10 {
      DigitsAreDigits(n / 10);
      var s := Digits(n);
      assert s[..|s| - 1] == Digits(n / 10);
    }
  }

  /** Reading back the decimal text of any 32-bit Int gives that Int. */
  lemma DecimalRoundTrip(v: int)
    requires IntMin <= v <= IntMax
    ensures ParseInt(Decimal(v)) == Some(v)
  {
    var s := Decimal(v);
    if v < 0 {
      DigitsAreDigits(-v);
      assert s[0] == '-';
      assert s[1..] == Digits(-v);
    } else {
      DigitsAreDigits(v);
      assert s == Digits(v);
      assert IsDigit(s[0]);
    }
  }

  /** Kotlin string template "${v}". A list or map value renders as "" here: its
      Kotlin text depends on hash order, which the model does not have. */
  function Render(v: Value): string
  {
    match v
    case Null => "null"
    case Bool(b) => if b then "true" else "false"
    case Int(i) => Decimal(i)
    case Str(s) => s
    case Real(_, text) => text
    case Other(shown) => shown
    case Items(_) => ""
    case Dict(_) => ""
  }

  // ---------------------------------------------------------------------------
  // Event envelopes

  /** `mutableMapOf(tag to name).apply { data?.let { putAll(it) } }`, and Swift's
      `["event": name].merge(data) { _, new in new }`: the tag key names the event
      and every data entry is copied over it, so a data entry keyed like the tag
      wins. */
  function Envelope(tag: string, name: string, data: Option<Payload>): (m: Payload)
    ensures data.None? ==> m == map[tag := Str(name)]
    ensures data.Some? ==> m.Keys == {tag} + data.value.Keys
    ensures data.Some? ==> forall k :: k in data.value ==> m[k] == data.value[k]
    ensures (data.None? || tag !in data.value) ==> m[tag] == Str(name)
  {
    match data
    case None => map[tag := Str(name)]
    case Some(d) => map[tag := Str(name)] + d
  }

  // ---------------------------------------------------------------------------
  // Method-call arguments

  /** What `call.argument<T>(key)` yields: null (key missing or value null), a
      value of the asked-for type, or a value of another type, whose cast throws
      a ClassCastException. */
  datatype Arg<T> = Absent | Given(v: T) | Mistyped
  {
    function Or(default: T): T
    {
      match this
      case Given(v) => v
      case _ => default
    }
  }

  function StringArg(args: Payload, key: string): Arg<string>
  {
    match Get(args, key)
    case Null => Absent
    case Str(s) => Given(s)
    case _ => Mistyped
  }

  function BoolArg(args: Payload, key: string): Arg<bool>
  {
    match Get(args, key)
    case Null => Absent
    case Bool(b) => Given(b)
    case _ => Mistyped
  }

  const LongMin: int := -0x8000_0000_0000_0000
  const LongMax: int := 0x7FFF_FFFF_FFFF_FFFF

  /** Kotlin's `Double.toLong()` on a finite double: truncation toward zero,
      saturating at the bounds of a 64-bit `Long`. */
  function Truncate(r: real): (i: int)
    ensures LongMin <= i <= LongMax
    ensures 0.0 <= r < LongMax as real + 1.0 ==> i as real <= r < i as real + 1.0
    ensures LongMin as real - 1.0 < r < 0.0 ==> i as real - 1.0 < r <= i as real
    ensures r >= LongMax as real + 1.0 ==> i == LongMax
    ensures r <= LongMin as real - 1.0 ==> i == LongMin
  {
    var t := if r >= 0.0 then r.Floor else -((-r).Floor);
    if t > LongMax then LongMax else if t < LongMin then LongMin else t
  }

  /** `call.argument<Number>(key)?.toLong()`: integers as they are, doubles
      truncated toward zero. */
  function NumberArg(args: Payload, key: string): Arg<int>
  {
    match Get(args, key)
    case Null => Absent
    case Int(i) => Given(i)
    case Real(r, _) => Given(Truncate(r))
    case _ => Mistyped
  }

  predicate AllDicts(elems: seq<Value>)
  {
    forall k :: 0 <= k < |elems| ==> elems[k].Dict?
  }

  /** `call.argument<List<Map<String, Any>>>(key)`: a list whose elements are all maps. */
  function ListArg(args: Payload, key: string): (r: Arg<seq<Payload>>)
    ensures r.Given? ==> Get(args, key).Items? && |r.v| == |Get(args, key).elems|
    ensures r.Given? ==> forall k :: 0 <= k < |r.v| ==> Get(args, key).elems[k] == Dict(r.v[k])
  {
    match Get(args, key)
    case Null => Absent
    case Items(elems) =>
      if AllDicts(elems) then Given(seq(|elems|, k requires 0 <= k < |elems| => elems[k].entries))
      else Mistyped
    case _ => Mistyped
  }

  /** The maps a receiver iterating over a list sees before it reaches the
      first element that is not a map, where the element's cast throws. */
  function MapPrefix(elems: seq<Value>): (r: seq<Payload>)
    ensures |r| <= |elems|
    ensures forall k :: 0 <= k < |r| ==> elems[k] == Dict(r[k])
    ensures |r| < |elems| ==> !elems[|r|].Dict?
    ensures |r| == |elems| <==> AllDicts(elems)
  {
    if elems == [] || !elems[0].Dict? then []
    else
      var rest := MapPrefix(elems[1..]);
      assert forall k :: 1 <= k < |elems| ==> elems[k] == elems[1..][k - 1];
      [elems[0].entries] + rest
  }

  // ---------------------------------------------------------------------------
  // Build properties

  /** ASCII lower case; other characters as they are. */
  function LowerAscii(c: char): char
  {
    if 'A' <= c <= 'Z' then (c as int + 32) as char else c
  }

  /** A character folds to a letter of "samsung" exactly when it is that
      letter in either case. */
  lemma FoldsToLower(name: string)
    requires |name| == 7
    ensures forall i :: 0 <= i < 7 ==> (LowerAscii(name[i]) == "samsung"[i] <==> name[i] == "samsung"[i] || name[i] == "SAMSUNG"[i])
  {
    forall i | 0 <= i < 7
      ensures LowerAscii(name[i]) == "samsung"[i] <==> name[i] == "samsung"[i] || name[i] == "SAMSUNG"[i]
    {
      assert "samsung"[i] as int == "SAMSUNG"[i] as int + 32;
    }
  }

  /** `Build.MANUFACTURER.equals("samsung", ignoreCase = true)`, with case
      folded over ASCII letters: each of the seven characters is the letter
      of "samsung" in lower or in upper case. */
  function IsSamsungManufacturer(name: string): (r: bool)
    ensures r <==> |name| == 7 && forall i :: 0 <= i < 7 ==> name[i] == "samsung"[i] || name[i] == "SAMSUNG"[i]
  {
    if |name| != 7 then false
    else
      FoldsToLower(name);
      forall i :: 0 <= i < 7 ==> LowerAscii(name[i]) == "samsung"[i]
  }

  /** Examples of the manufacturer test: three casings of the name pass, another
      maker and the name with a trailing space do not. */
  lemma SamsungSpellings()
    ensures IsSamsungManufacturer("samsung") && IsSamsungManufacturer("Samsung") && IsSamsungManufacturer("SAMSUNG")
    ensures !IsSamsungManufacturer("Google") && !IsSamsungManufacturer("samsung ")
  {
    assert LowerAscii('G') != 's';
  }
}

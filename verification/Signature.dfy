/** The signature parser of `rob` (src/bin/rob.rs): signature characters and arguments are consumed in step. */
module Signature {
  import opened Rpc

  datatype ParseError =
    | ExpectedString | ExpectedInteger | ExpectedKey
    | InvalidInteger(text: string) | UnexpectedChar(c: char) | UnexpectedEnd

  /** A value, and what is left of the signature and of the arguments. */
  datatype Parse = Parsed(value: Value, sig: string, args: seq<string>) | Rejected(error: ParseError)

  // ---------- integers ----------

  predicate IsDigit(c: char) {
    '0' <= c <= '9'
  }

  function Digit(c: char): nat
    requires IsDigit(c)
  {
    (c as int) - ('0' as int)
  }

  predicate AllDigits(s: string) {
    forall c | c in s :: IsDigit(c)
  }

  function Decimal(s: string): nat
    requires AllDigits(s)
  {
    if s == "" then 0 else Decimal(s[..|s| - 1]) * 10 + Digit(s[|s| - 1])
  }

  const I64_MIN: int := -0x8000_0000_0000_0000
  const I64_MAX: int := 0x7fff_ffff_ffff_ffff

  predicate IsI64(n: int) {
    I64_MIN <= n <= I64_MAX
  }

  /** `str::parse::<i64>`: an optional sign, at least one digit, and the value in range. */
  function ParseI64(s: string): Option<int> {
    var signed := s != "" && (s[0] == '-' || s[0] == '+');
    var digits := if signed then s[1..] else s;
    if digits == "" || !AllDigits(digits) then None
    else
      var magnitude: int := Decimal(digits);
      var n := if signed && s[0] == '-' then -magnitude else magnitude;
      if IsI64(n) then Some(n) else None
  }

  function Pow10(k: nat): nat {
    if k == 0 then 1 else 10 * Pow10(k - 1)
  }

  predicate Digits(ds: string) {
    ds != "" && forall i | 0 <= i < |ds| :: '0' <= ds[i] <= '9'
  }

  /** The number that digits stand for, by place value. */
  function Worth(ds: string): int {
    if ds == "" then 0 else ((ds[0] as int) - ('0' as int)) * Pow10(|ds| - 1) + Worth(ds[1..])
  }

  /** The text is this sign and these digits, and stands for the 64-bit integer `n`. */
  predicate Spells(s: string, sign: string, ds: string, n: int) {
    && s == sign + ds && (sign == "" || sign == "+" || sign == "-") && Digits(ds)
    && n == (if sign == "-" then -Worth(ds) else Worth(ds))
    && -9223372036854775808 <= n <= 9223372036854775807
  }

  ghost predicate IntegerText(s: string, n: int) {
    exists sign, ds :: Spells(s, sign, ds, n)
  }

  lemma {:induction false} WorthAppend(ds: string, c: char)
    ensures Worth(ds + [c]) == Worth(ds) * 10 + ((c as int) - ('0' as int))
  {
    if ds == "" {
      assert [c][1..] == "" && "" + [c] == [c] && Pow10(0) == 1;
    } else {
      WorthAppend(ds[1..], c);
      assert (ds + [c])[1..] == ds[1..] + [c];
      var d, p := (ds[0] as int) - ('0' as int), Pow10(|ds| - 1);
      assert d * (10 * p) == (d * p) * 10;
    }
  }

  lemma {:induction false} DecimalIsWorth(ds: string)
    requires AllDigits(ds)
    ensures Decimal(ds) == Worth(ds)
  {
    if ds != "" {
      var front, c := ds[..|ds| - 1], ds[|ds| - 1];
      DecimalIsWorth(front);
      WorthAppend(front, c);
      assert ds == front + [c];
    }
  }

  lemma DigitsAll(ds: string)
    ensures Digits(ds) <==> ds != "" && AllDigits(ds)
  {
    if AllDigits(ds) {
      forall i | 0 <= i < |ds| ensures '0' <= ds[i] <= '9' { assert ds[i] in ds; }
    }
  }

  lemma SpelledIsRead(s: string, sign: string, ds: string, n: int)
    requires Spells(s, sign, ds, n)
    ensures ParseI64(s) == Some(n)
  {
    DigitsAll(ds);
    DecimalIsWorth(ds);
    if sign == "" {
      assert s == ds && '0' <= s[0] <= '9';
    } else {
      assert s[0] == sign[0] && s[1..] == ds;
    }
  }

  /** Exactly the texts of an optional sign and at least one digit, and nothing else, are read; and as their value. */
  lemma ParseI64Exactly(s: string, n: int)
    ensures ParseI64(s) == Some(n) <==> IntegerText(s, n)
  {
    if ParseI64(s) == Some(n) {
      var signed := s[0] == '-' || s[0] == '+';
      var sign, ds := if signed then s[..1] else "", if signed then s[1..] else s;
      DigitsAll(ds);
      DecimalIsWorth(ds);
      assert s == sign + ds && (signed ==> sign == [s[0]]);
      assert Spells(s, sign, ds, n);
    }
    if sign, ds :| Spells(s, sign, ds, n) { SpelledIsRead(s, sign, ds, n); }
  }

  function NatText(n: nat): (s: string)
    ensures s != "" && AllDigits(s)
  {
    var last := [(n % 10 + ('0' as int)) as char];
    if n < 10 then last else NatText(n / 10) + last
  }

  function IntText(n: int): string {
    if n < 0 then "-" + NatText(-n) else NatText(n)
  }

  lemma {:induction false} DecimalOfNatText(n: nat)
    ensures Decimal(NatText(n)) == n
  {
    var s := NatText(n);
    if n >= 10 {
      DecimalOfNatText(n / 10);
      assert s[..|s| - 1] == NatText(n / 10);
    }
  }

  lemma IntegerRoundTrip(n: int)
    requires IsI64(n)
    ensures ParseI64(IntText(n)) == Some(n)
  {
    var magnitude := if n < 0 then -n else n;
    DecimalOfNatText(magnitude);
    var s := NatText(magnitude);
    assert IsDigit(s[0]) by { assert s[0] in s; }
    assert ("-" + s)[1..] == s;
  }

  // ---------- the parser as a function ----------

  function ParseValue(sig: string, args: seq<string>): (r: Parse)
    ensures r.Parsed? ==> |r.sig| < |sig|
    decreases |sig|, 0
  {
    if sig == "" then Rejected(UnexpectedEnd)
    else match sig[0]
      case 's' => if args == [] then Rejected(ExpectedString) else Parsed(String(args[0]), sig[1..], args[1..])
      case 'i' =>
        if args == [] then Rejected(ExpectedInteger)
        else if ParseI64(args[0]).None? then Rejected(InvalidInteger(args[0]))
        else Parsed(Number(ParseI64(args[0]).value), sig[1..], args[1..])
      case '{' => ParseMap(sig[1..], args, map[])
      case '(' => ParseList(sig[1..], args, [])
      case 'n' => Parsed(Null, sig[1..], args)
      case c => Rejected(UnexpectedChar(c))
  }

  /** The entries of a map up to its bracket or the end of the signature, inserted into `fields`. */
  function ParseMap(sig: string, args: seq<string>, fields: map<string, Value>): (r: Parse)
    ensures r.Parsed? ==> |r.sig| <= |sig|
    decreases |sig|, 1
  {
    if sig == "" then Parsed(Object(fields), sig, args)
    else if sig[0] == '}' then Parsed(Object(fields), sig[1..], args)
    else if args == [] then Rejected(ExpectedKey)
    else
      var r := ParseValue(sig, args[1..]);
      if r.Rejected? then r else ParseMap(r.sig, r.args, fields[args[0] := r.value])
  }

  /** The items of a list up to its bracket or the end of the signature, pushed on `items`. */
  function ParseList(sig: string, args: seq<string>, items: seq<Value>): (r: Parse)
    ensures r.Parsed? ==> |r.sig| <= |sig|
    decreases |sig|, 1
  {
    if sig == "" then Parsed(Array(items), sig, args)
    else if sig[0] == ')' then Parsed(Array(items), sig[1..], args)
    else
      var r := ParseValue(sig, args);
      if r.Rejected? then r else ParseList(r.sig, r.args, items + [r.value])
  }

  // ---------- the code: two cursors advanced in step ----------

  datatype Outcome = Ok(value: Value) | Err(error: ParseError)

  class Parser {
    const sig: string
    const args: seq<string>
    var at: nat    // signature characters consumed
    var used: nat  // arguments consumed

    predicate Valid()
      reads this
    {
      at <= |sig| && used <= |args|
    }

    ghost function Sig(): string
      reads this
      requires Valid()
    {
      sig[at..]
    }

    ghost function Args(): seq<string>
      reads this
      requires Valid()
    {
      args[used..]
    }

    constructor (sig: string, args: seq<string>)
      ensures Valid() && this.sig == sig && this.args == args && at == used == 0
      ensures Sig() == sig && Args() == args
    {
      this.sig, this.args, at, used := sig, args, 0, 0;
    }

    /** The state after a parse that `p` describes. */
    ghost predicate Agrees(r: Outcome, p: Parse)
      reads this
    {
      && Valid()
      && match p
         case Parsed(v, s, a) => r == Ok(v) && Sig() == s && Args() == a
         case Rejected(e) => r == Err(e)
    }

    method NextArg() returns (arg: Option<string>)
      requires Valid()
      modifies this`used
      ensures Valid()
      ensures if old(Args()) == [] then arg.None? && Args() == []
              else arg == Some(old(Args())[0]) && Args() == old(Args())[1..]
    {
      if used == |args| { return None; }
      arg, used := Some(args[used]), used + 1;
    }

    method ParseHere() returns (r: Outcome)
      requires Valid()
      modifies this
      ensures Agrees(r, ParseValue(old(Sig()), old(Args()))) && at >= old(at)
      ensures r.Ok? ==> at > old(at)
      decreases |sig| - at, 0
    {
      if at == |sig| { return Err(UnexpectedEnd); }
      var c := sig[at];
      at := at + 1;
      match c {
        case 's' =>
          var arg := NextArg();
          if arg.None? { return Err(ExpectedString); }
          return Ok(String(arg.value));
        case 'i' =>
          var arg := NextArg();
          if arg.None? { return Err(ExpectedInteger); }
          var n := ParseI64(arg.value);
          if n.None? { return Err(InvalidInteger(arg.value)); }
          return Ok(Number(n.value));
        case '{' => r := ParseMapHere();
        case '(' => r := ParseListHere();
        case 'n' => return Ok(Null);
        case _ => return Err(UnexpectedChar(c));
      }
    }

    method ParseMapHere() returns (r: Outcome)
      requires Valid()
      modifies this
      ensures Agrees(r, ParseMap(old(Sig()), old(Args()), map[])) && at >= old(at)
      decreases |sig| - at, 1
    {
      ghost var all := ParseMap(Sig(), Args(), map[]);
      var fields := map[];
      while at < |sig|
        invariant Valid() && at >= old(at) && all == ParseMap(Sig(), Args(), fields)
        decreases |sig| - at
      {
        if sig[at] == '}' {
          at := at + 1;
          return Ok(Object(fields));
        }
        var key := NextArg();
        if key.None? { return Err(ExpectedKey); }
        var v := ParseHere();
        if v.Err? { return v; }
        fields := fields[key.value := v.value];
      }
      return Ok(Object(fields));
    }

    method ParseListHere() returns (r: Outcome)
      requires Valid()
      modifies this
      ensures Agrees(r, ParseList(old(Sig()), old(Args()), [])) && at >= old(at)
      decreases |sig| - at, 1
    {
      ghost var all := ParseList(Sig(), Args(), []);
      var items := [];
      while at < |sig|
        invariant Valid() && at >= old(at) && all == ParseList(Sig(), Args(), items)
        decreases |sig| - at
      {
        if sig[at] == ')' {
          at := at + 1;
          return Ok(Array(items));
        }
        var v := ParseHere();
        if v.Err? { return v; }
        items := items + [v.value];
      }
      return Ok(Array(items));
    }
  }

  /** The whole parse of a signature; `left` are the arguments after it. */
  method ParseSignature(sig: string, args: seq<string>) returns (r: Outcome, left: seq<string>)
    ensures match ParseValue(sig, args)
            case Parsed(v, _, rest) => r == Ok(v) && left == rest
            case Rejected(e) => r == Err(e)
  {
    var parser := new Parser(sig, args);
    r := parser.ParseHere();
    left := parser.args[parser.used..];
  }
}

/** What the signature parser of `rob` promises: its exact language, automatic closing, and the round trip. */
module SignatureLaws {
  import opened Rpc
  import opened Signature
  import opened SignatureGrammar

  // ---------- the arguments a shape takes ----------

  datatype Kind = AnyText | Integer

  /** The arguments of a shape, in order: its strings and integers, and a key before each map entry. */
  function Wants(sh: Shape): seq<Kind> {
    match sh
    case S => [AnyText]
    case I => [Integer]
    case N => []
    case M(es) => WantsEntries(es)
    case L(es) => WantsItems(es)
  }

  function WantsEntries(es: seq<Shape>): seq<Kind> {
    if es == [] then [] else [AnyText] + Wants(es[0]) + WantsEntries(es[1..])
  }

  function WantsItems(es: seq<Shape>): seq<Kind> {
    if es == [] then [] else Wants(es[0]) + WantsItems(es[1..])
  }

  ghost predicate IsInteger(s: string) {
    exists n :: IntegerText(s, n)
  }

  lemma ReadIntegers(s: string)
    ensures ParseI64(s).Some? <==> IsInteger(s)
  {
    if ParseI64(s).Some? { ParseI64Exactly(s, ParseI64(s).value); }
    if n :| IntegerText(s, n) { ParseI64Exactly(s, n); }
  }

  /** There are enough arguments, and each one that an integer is read from is the text of one. */
  ghost predicate Fits(kinds: seq<Kind>, args: seq<string>) {
    |kinds| <= |args| && forall i | 0 <= i < |kinds| && kinds[i] == Integer :: IsInteger(args[i])
  }

  lemma FitsSplit(first: seq<Kind>, more: seq<Kind>, args: seq<string>)
    ensures Fits(first + more, args) <==> Fits(first, args) && Fits(more, args[|first|..])
  {
    if Fits(first + more, args) {
      assert forall i | 0 <= i < |first| :: first[i] == (first + more)[i];
      assert forall i | 0 <= i < |more| :: more[i] == (first + more)[|first| + i];
    }
  }

  /** A shape denotes a value exactly of arguments that fit, and takes just those. */
  lemma {:induction false} DenotesFitting(sh: Shape, args: seq<string>)
    ensures Denote(sh, args).Some? <==> Fits(Wants(sh), args)
    ensures Denote(sh, args).Some? ==> Denote(sh, args).value.args == args[|Wants(sh)|..]
    decreases sh, 1
  {
    match sh
    case I => if args != [] { ReadIntegers(args[0]); }
    case M(es) => EntriesFitting(es, args, map[]);
    case L(es) => ItemsFitting(es, args, []);
    case _ =>
  }

  lemma {:induction false} EntriesFitting(es: seq<Shape>, args: seq<string>, fields: map<string, Value>)
    ensures DenoteMap(es, args, fields).Some? <==> Fits(WantsEntries(es), args)
    ensures DenoteMap(es, args, fields).Some? ==> DenoteMap(es, args, fields).value.1 == args[|WantsEntries(es)|..]
    decreases es, 0
  {
    if es != [] {
      var own, more := [AnyText] + Wants(es[0]), WantsEntries(es[1..]);
      FitsSplit([AnyText], Wants(es[0]), args);
      FitsSplit(own, more, args);
      if args != [] {
        DenotesFitting(es[0], args[1..]);
        var r := Denote(es[0], args[1..]);
        if r.Some? {
          assert args[1..][|Wants(es[0])|..] == args[|own|..];
          EntriesFitting(es[1..], args[|own|..], fields[args[0] := r.value.value]);
        }
      }
    }
  }

  lemma {:induction false} ItemsFitting(es: seq<Shape>, args: seq<string>, items: seq<Value>)
    ensures DenoteList(es, args, items).Some? <==> Fits(WantsItems(es), args)
    ensures DenoteList(es, args, items).Some? ==> DenoteList(es, args, items).value.1 == args[|WantsItems(es)|..]
    decreases es, 0
  {
    if es != [] {
      FitsSplit(Wants(es[0]), WantsItems(es[1..]), args);
      DenotesFitting(es[0], args);
      var r := Denote(es[0], args);
      if r.Some? { ItemsFitting(es[1..], r.value.args, items + [r.value.value]); }
    }
  }

  // ---------- counting ----------

  function Count(sig: string, chars: set<char>): nat {
    if sig == "" then 0 else (if sig[0] in chars then 1 else 0) + Count(sig[1..], chars)
  }

  lemma {:induction false} CountAppend(a: string, b: string, chars: set<char>)
    ensures Count(a + b, chars) == Count(a, chars) + Count(b, chars)
  {
    if a == "" {
      assert a + b == b;
    } else {
      assert (a + b)[1..] == a[1..] + b;
      CountAppend(a[1..], b, chars);
    }
  }

  lemma {:induction false} CountAll(sig: string, chars: set<char>)
    ensures (forall c | c in sig :: c in chars) ==> Count(sig, chars) == |sig|
    ensures (forall c | c in sig :: c !in chars) ==> Count(sig, chars) == 0
  {
    if sig != "" { CountAll(sig[1..], chars); }
  }

  /** The entries of all maps in a shape. */
  function Entries(sh: Shape): nat {
    match sh
    case M(es) => |es| + EntriesIn(es)
    case L(es) => EntriesIn(es)
    case _ => 0
  }

  function EntriesIn(es: seq<Shape>): nat {
    if es == [] then 0 else Entries(es[0]) + EntriesIn(es[1..])
  }

  const LEAVES := {'s', 'i'}
  const OPENERS := {'{', '('}
  const CLOSERS := {'}', ')'}

  lemma BracketCounts(o: string, body: string, c: string)
    requires (o == "{" && c == "}") || (o == "(" && c == ")")
    ensures Count(o + body + c, LEAVES) == Count(body, LEAVES)
    ensures Count(o + body + c, OPENERS) == Count(body, OPENERS) + 1
    ensures Count(o + body + c, CLOSERS) == Count(body, CLOSERS) + 1
  {
    forall chars: set<char>
      ensures Count(o + body + c, chars) == Count(o, chars) + Count(body, chars) + Count(c, chars)
    {
      CountAppend(o + body, c, chars);
      CountAppend(o, body, chars);
    }
    assert o[1..] == "" && c[1..] == "";
    assert o[0] in OPENERS && o[0] !in CLOSERS && o[0] !in LEAVES;
    assert c[0] in CLOSERS && c[0] !in OPENERS && c[0] !in LEAVES;
    assert Count(o, OPENERS) == 1 && Count(o, CLOSERS) == 0 && Count(o, LEAVES) == 0;
    assert Count(c, OPENERS) == 0 && Count(c, CLOSERS) == 1 && Count(c, LEAVES) == 0;
  }

  /** Arguments taken = `s` + `i` + map entries; and every bracket is closed. */
  lemma {:induction false} ClosedCounts(sh: Shape)
    ensures |Wants(sh)| == Count(Text(sh), LEAVES) + Entries(sh)
    ensures Count(Text(sh), OPENERS) == Count(Text(sh), CLOSERS)
    decreases sh, 1
  {
    match sh
    case M(es) => AllCounts(es); BracketCounts("{", TextAll(es), "}");
    case L(es) => AllCounts(es); BracketCounts("(", TextAll(es), ")");
    case _ => assert Text(sh)[1..] == "";
  }

  lemma {:induction false} AllCounts(es: seq<Shape>)
    ensures |WantsItems(es)| == Count(TextAll(es), LEAVES) + EntriesIn(es)
    ensures |WantsEntries(es)| == |WantsItems(es)| + |es|
    ensures Count(TextAll(es), OPENERS) == Count(TextAll(es), CLOSERS)
    decreases es, 0
  {
    if es != [] {
      ClosedCounts(es[0]);
      AllCounts(es[1..]);
      forall chars: set<char>
        ensures Count(TextAll(es), chars) == Count(Text(es[0]), chars) + Count(TextAll(es[1..]), chars)
      {
        CountAppend(Text(es[0]), TextAll(es[1..]), chars);
      }
    }
  }

  lemma OpenCounts(sh: Shape, k: nat)
    requires CanOpen(sh, k)
    ensures |Wants(sh)| == Count(OpenText(sh, k), LEAVES) + Entries(sh)
    ensures Count(OpenText(sh, k), OPENERS) == Count(OpenText(sh, k), CLOSERS) + k
  {
    ClosedCounts(sh);
    Closing(sh, k);
    forall chars ensures Count(Text(sh), chars) == Count(OpenText(sh, k), chars) + Count(Closers(sh, k), chars) {
      CountAppend(OpenText(sh, k), Closers(sh, k), chars);
    }
    forall chars { CountAll(Closers(sh, k), chars); }
  }

  // ---------- the exact language of the parser ----------

  /**
   Parsing succeeds if and only if the signature has a grammatical prefix, with brackets unclosed only at its end, and
   the arguments fit it.
   */
  lemma Characterised(sig: string, args: seq<string>)
    ensures ParseValue(sig, args).Parsed? <==>
            exists sh, k, rest :: IsPrefix(sig, sh, k, rest) && Fits(Wants(sh), args)
  {
    var p := ParseValue(sig, args);
    if p.Parsed? {
      var sh, k := AcceptsOnly(sig, args);
      DenotesFitting(sh, args);
      assert IsPrefix(sig, sh, k, p.sig) && Fits(Wants(sh), args);
    }
    if sh, k, rest :| IsPrefix(sig, sh, k, rest) && Fits(Wants(sh), args) { Understood(sig, args, sh, k, rest); }
  }

  /** The result is what the prefix denotes, and the arguments taken are #s + #i + the number of map entries. */
  lemma Understood(sig: string, args: seq<string>, sh: Shape, k: nat, rest: string)
    requires IsPrefix(sig, sh, k, rest) && Fits(Wants(sh), args)
    ensures Denote(sh, args).Some?
    ensures ParseValue(sig, args) == Parsed(Denote(sh, args).value.value, rest, args[|Wants(sh)|..])
    ensures |Wants(sh)| == Count(OpenText(sh, k), LEAVES) + Entries(sh)
  {
    DenotesFitting(sh, args);
    OpenCounts(sh, k);
    if k == 0 {
      AcceptsClosed(sh, rest, args);
    } else {
      assert sig == OpenText(sh, k);
      AcceptsOpen(sh, k, args);
    }
  }

  /** The signature "i" reads the next argument as the integer it is the text of, and rejects any other. */
  lemma IntegersRead(args: seq<string>, rest: string, n: int)
    ensures args == [] ==> ParseValue("i" + rest, args) == Rejected(ExpectedInteger)
    ensures args != [] ==>
              (ParseValue("i" + rest, args) == Parsed(Number(n), rest, args[1..]) <==> IntegerText(args[0], n))
    ensures args != [] && !IsInteger(args[0]) ==> ParseValue("i" + rest, args) == Rejected(InvalidInteger(args[0]))
  {
    assert ("i" + rest)[1..] == rest;
    if args != [] {
      ParseI64Exactly(args[0], n);
      ReadIntegers(args[0]);
    }
  }

  /** What an error says is so: of the signature, of the argument, or that the signature was empty to begin with. */
  ghost predicate Justified(e: ParseError, sig: string, args: seq<string>) {
    match e
    case UnexpectedEnd => sig == ""
    case ExpectedString => 's' in sig
    case ExpectedInteger => 'i' in sig
    case ExpectedKey => '{' in sig
    case InvalidInteger(t) => 'i' in sig && t in args && !IsInteger(t)
    case UnexpectedChar(c) => c in sig && c !in {'s', 'i', 'n', '{', '('}
  }

  /** The same, inside brackets: there the end of the signature is no error, and a bracket may have come before. */
  ghost predicate JustifiedWithin(e: ParseError, sig: string, args: seq<string>, bracket: char) {
    e != UnexpectedEnd && (Justified(e, sig, args) || (e == ExpectedKey && bracket == '{'))
  }

  lemma {:induction false} ErrorsJustified(sig: string, args: seq<string>)
    ensures ParseValue(sig, args).Rejected? ==> Justified(ParseValue(sig, args).error, sig, args)
    decreases |sig|, 0
  {
    if sig != "" {
      assert forall c | c in sig[1..] :: c in sig;
      match sig[0]
      case 'i' => if args != [] { ReadIntegers(args[0]); }
      case '{' => MapErrorsJustified(sig[1..], args, map[]);
      case '(' => ListErrorsJustified(sig[1..], args, []);
      case _ =>
    }
  }

  lemma {:induction false} MapErrorsJustified(sig: string, args: seq<string>, fields: map<string, Value>)
    ensures var p := ParseMap(sig, args, fields); p.Rejected? ==> JustifiedWithin(p.error, sig, args, '{')
    decreases |sig|, 1
  {
    if sig != "" && sig[0] != '}' && args != [] {
      ErrorsJustified(sig, args[1..]);
      var r := ParseValue(sig, args[1..]);
      if r.Parsed? {
        LeftOver(sig, args[1..]);
        MapErrorsJustified(r.sig, r.args, fields[args[0] := r.value]);
      }
    }
  }

  lemma {:induction false} ListErrorsJustified(sig: string, args: seq<string>, items: seq<Value>)
    ensures var p := ParseList(sig, args, items); p.Rejected? ==> JustifiedWithin(p.error, sig, args, '(')
    decreases |sig|, 1
  {
    if sig != "" && sig[0] != ')' {
      ErrorsJustified(sig, args);
      var r := ParseValue(sig, args);
      if r.Parsed? {
        LeftOver(sig, args);
        ListErrorsJustified(r.sig, r.args, items + [r.value]);
      }
    }
  }

  /** What a parse leaves are ends of the signature and of the arguments. */
  lemma LeftOver(sig: string, args: seq<string>)
    requires ParseValue(sig, args).Parsed?
    ensures forall c | c in ParseValue(sig, args).sig :: c in sig
    ensures forall t | t in ParseValue(sig, args).args :: t in args
  {
    var sh, k := AcceptsOnly(sig, args);
    DenotesFitting(sh, args);
  }

  /**
   Automatic closing: when a parse runs out of signature, appending the missing brackets, as many as are open, gives
   the same value and the same leftover arguments, whatever comes after them.
   */
  lemma {:induction false} AutoClosing(sig: string, args: seq<string>, rest: string) returns (closers: string)
    requires ParseValue(sig, args).Parsed? && ParseValue(sig, args).sig == ""
    ensures |closers| == Count(sig, OPENERS) - Count(sig, CLOSERS) && forall c | c in closers :: c in CLOSERS
    ensures ParseValue(sig + closers + rest, args) == ParseValue(sig, args).(sig := rest)
  {
    var sh, k := AcceptsOnly(sig, args);
    closers := Closers(sh, k);
    assert sig == OpenText(sh, k);
    OpenCounts(sh, k);
    Closing(sh, k);
    AcceptsClosed(sh, rest, args);
  }

  /** No closed signature is a proper prefix of another, and a signature has one reading. */
  lemma {:induction false} PrefixFree(a: Shape, b: Shape, r: string, q: string)
    requires Text(a) + r == Text(b) + q
    ensures a == b && r == q
    decreases a, 1
  {
    var sig := Text(a) + r;
    assert sig[0] == Text(a)[0] == Text(b)[0];
    match a
    case M(es) =>
      assert sig[1..] == TextAll(es) + ("}" + r) == TextAll(b.entries) + ("}" + q);
      BodiesPrefixFree(es, b.entries, "}" + r, "}" + q);
      assert ("}" + r)[1..] == r && ("}" + q)[1..] == q;
    case L(es) =>
      assert sig[1..] == TextAll(es) + (")" + r) == TextAll(b.items) + (")" + q);
      BodiesPrefixFree(es, b.items, ")" + r, ")" + q);
      assert (")" + r)[1..] == r && (")" + q)[1..] == q;
    case _ => assert sig[1..] == r == q;
  }

  lemma {:induction false} BodiesPrefixFree(a: seq<Shape>, b: seq<Shape>, r: string, q: string)
    requires TextAll(a) + r == TextAll(b) + q && r != "" && q != "" && r[0] in CLOSERS && q[0] in CLOSERS
    ensures a == b && r == q
    decreases a, 0
  {
    var sig := TextAll(a) + r;
    if a == [] || b == [] {
      assert a == [] ==> sig == r;
      assert b == [] ==> sig == q;
    } else {
      assert sig == Text(a[0]) + (TextAll(a[1..]) + r) == Text(b[0]) + (TextAll(b[1..]) + q);
      PrefixFree(a[0], b[0], TextAll(a[1..]) + r, TextAll(b[1..]) + q);
      BodiesPrefixFree(a[1..], b[1..], r, q);
      assert a == [a[0]] + a[1..] && b == [b[0]] + b[1..];
    }
  }

  // ---------- repeated keys ----------

  /** The keys and values of a map's entries, in signature order. */
  function Pairs(es: seq<Shape>, args: seq<string>): seq<(string, Value)>
    requires Fits(WantsEntries(es), args)
  {
    if es == [] then []
    else
      FitsSplit([AnyText], Wants(es[0]), args);
      FitsSplit([AnyText] + Wants(es[0]), WantsEntries(es[1..]), args);
      DenotesFitting(es[0], args[1..]);
      assert args[1..][|Wants(es[0])|..] == args[|[AnyText] + Wants(es[0])|..];
      var m := Denote(es[0], args[1..]).value;
      [(args[0], m.value)] + Pairs(es[1..], m.args)
  }

  /** The last pair of a key is the one that counts. */
  predicate IsLast(pairs: seq<(string, Value)>, i: nat) {
    i < |pairs| && forall j | i < j < |pairs| :: pairs[j].0 != pairs[i].0
  }

  function Inserted(pairs: seq<(string, Value)>, fields: map<string, Value>): map<string, Value> {
    if pairs == [] then fields
    else
      var n := |pairs| - 1;
      Inserted(pairs[..n], fields)[pairs[n].0 := pairs[n].1]
  }

  lemma {:induction false} InsertedFirst(p: (string, Value), more: seq<(string, Value)>, fields: map<string, Value>)
    ensures Inserted([p] + more, fields) == Inserted(more, fields[p.0 := p.1])
  {
    var n := |more|;
    assert ([p] + more)[..n] == if n == 0 then [] else [p] + more[..n - 1];
    if n > 0 { InsertedFirst(p, more[..n - 1], fields); }
  }

  lemma {:induction false} InOrder(es: seq<Shape>, args: seq<string>, fields: map<string, Value>)
    requires Fits(WantsEntries(es), args)
    ensures |Pairs(es, args)| == |es|
    ensures DenoteMap(es, args, fields).Some?
    ensures DenoteMap(es, args, fields).value.0 == Inserted(Pairs(es, args), fields)
  {
    EntriesFitting(es, args, fields);
    if es != [] {
      FitsSplit([AnyText], Wants(es[0]), args);
      FitsSplit([AnyText] + Wants(es[0]), WantsEntries(es[1..]), args);
      DenotesFitting(es[0], args[1..]);
      assert args[1..][|Wants(es[0])|..] == args[|[AnyText] + Wants(es[0])|..];
      var d := Denote(es[0], args[1..]).value;
      InOrder(es[1..], d.args, fields[args[0] := d.value]);
      InsertedFirst((args[0], d.value), Pairs(es[1..], d.args), fields);
    }
  }

  lemma LastBefore(pairs: seq<(string, Value)>, i: nat)
    requires pairs != [] && i < |pairs| - 1
    ensures IsLast(pairs, i) <==> IsLast(pairs[..|pairs| - 1], i) && pairs[i].0 != pairs[|pairs| - 1].0
  {
    var n := |pairs| - 1;
    assert forall j | 0 <= j < n :: pairs[j] == pairs[..n][j];
  }

  lemma {:induction false} LastKept(pairs: seq<(string, Value)>)
    ensures forall i: nat | IsLast(pairs, i) ::
        pairs[i].0 in Inserted(pairs, map[]) && Inserted(pairs, map[])[pairs[i].0] == pairs[i].1
    ensures forall key | key in Inserted(pairs, map[]) :: exists i: nat :: IsLast(pairs, i) && pairs[i].0 == key
  {
    if pairs != [] {
      var n := |pairs| - 1;
      var m := Inserted(pairs, map[]);
      LastKept(pairs[..n]);
      assert IsLast(pairs, n);
      forall i: nat | IsLast(pairs, i) && i < n ensures pairs[i].0 in m && m[pairs[i].0] == pairs[i].1 {
        LastBefore(pairs, i);
      }
      forall key | key in m && key != pairs[n].0 ensures exists i: nat :: IsLast(pairs, i) && pairs[i].0 == key {
        var i: nat :| IsLast(pairs[..n], i) && pairs[..n][i].0 == key;
        LastBefore(pairs, i);
      }
    }
  }

  /** A parsed map has exactly the keys written, each with the value written last for it. */
  lemma RepeatedKeys(es: seq<Shape>, args: seq<string>, rest: string)
    requires Fits(WantsEntries(es), args)
    ensures var p, pairs := ParseValue(Text(M(es)) + rest, args), Pairs(es, args);
            && p.Parsed? && p.value.Object? && |pairs| == |es|
            && (forall key :: key in p.value.fields <==> exists i: nat :: IsLast(pairs, i) && pairs[i].0 == key)
            && (forall i: nat | IsLast(pairs, i) :: p.value.fields[pairs[i].0] == pairs[i].1)
  {
    AcceptsClosed(M(es), rest, args);
    InOrder(es, args, map[]);
    LastKept(Pairs(es, args));
  }

  // ---------- the round trip ----------

  /** A value written out: what can be given on the command line, with its map entries in some order. */
  datatype Doc = Text_(text: string) | Int(n: int) | Nothing | List(docs: seq<Doc>) | Record(fields: seq<Field>)
  datatype Field = Field(key: string, doc: Doc)

  /** Its signature. */
  function ShapeOf(d: Doc): Shape {
    match d
    case Text_(_) => S
    case Int(_) => I
    case Nothing => N
    case List(ds) => L(seq(|ds|, i requires 0 <= i < |ds| => ShapeOf(ds[i])))
    case Record(fs) => M(seq(|fs|, i requires 0 <= i < |fs| => ShapeOf(fs[i].doc)))
  }

  /** Its arguments. */
  function ArgsOf(d: Doc): seq<string> {
    match d
    case Text_(t) => [t]
    case Int(n) => [IntText(n)]
    case Nothing => []
    case List(ds) => ArgsOfAll(ds)
    case Record(fs) => ArgsOfFields(fs)
  }

  function ArgsOfAll(ds: seq<Doc>): seq<string> {
    if ds == [] then [] else ArgsOf(ds[0]) + ArgsOfAll(ds[1..])
  }

  function ArgsOfFields(fs: seq<Field>): seq<string> {
    if fs == [] then [] else [fs[0].key] + ArgsOf(fs[0].doc) + ArgsOfFields(fs[1..])
  }

  /** The value it stands for; a record's later fields replace earlier ones with the same key. */
  function ValueOf(d: Doc): Value {
    match d
    case Text_(t) => String(t)
    case Int(n) => Number(n)
    case Nothing => Null
    case List(ds) => Array(seq(|ds|, i requires 0 <= i < |ds| => ValueOf(ds[i])))
    case Record(fs) => Object(MapOf(fs, map[]))
  }

  function MapOf(fs: seq<Field>, fields: map<string, Value>): map<string, Value> {
    if fs == [] then fields else MapOf(fs[1..], fields[fs[0].key := ValueOf(fs[0].doc)])
  }

  predicate InRange(d: Doc) {
    match d
    case Int(n) => IsI64(n)
    case List(ds) => forall i | 0 <= i < |ds| :: InRange(ds[i])
    case Record(fs) => forall i | 0 <= i < |fs| :: InRange(fs[i].doc)
    case _ => true
  }

  lemma {:induction false} DocDenotes(d: Doc, rest: seq<string>)
    requires InRange(d)
    ensures Denote(ShapeOf(d), ArgsOf(d) + rest) == Some(Meaning(ValueOf(d), rest))
    decreases d, 1
  {
    var args := ArgsOf(d) + rest;
    assert |ArgsOf(d)| == 1 ==> args[0] == ArgsOf(d)[0] && args[1..] == rest;
    match d
    case Int(n) => IntegerRoundTrip(n);
    case List(ds) =>
      ListDenotes(ds, rest, []);
      assert ShapeOf(d).items == Shapes(ds) && [] + Values(ds) == ValueOf(d).items;
    case Record(fs) =>
      RecordDenotes(fs, rest, map[]);
      assert ShapeOf(d).entries == FieldShapes(fs);
    case Text_(t) =>
    case Nothing => assert args == rest;
  }

  function Shapes(ds: seq<Doc>): seq<Shape> {
    seq(|ds|, i requires 0 <= i < |ds| => ShapeOf(ds[i]))
  }

  function FieldShapes(fs: seq<Field>): seq<Shape> {
    seq(|fs|, i requires 0 <= i < |fs| => ShapeOf(fs[i].doc))
  }

  function Values(ds: seq<Doc>): seq<Value> {
    seq(|ds|, i requires 0 <= i < |ds| => ValueOf(ds[i]))
  }

  lemma {:induction false} ListDenotes(ds: seq<Doc>, rest: seq<string>, items: seq<Value>)
    requires forall i | 0 <= i < |ds| :: InRange(ds[i])
    ensures DenoteList(Shapes(ds), ArgsOfAll(ds) + rest, items) == Some((items + Values(ds), rest))
    decreases ds, 0
  {
    if ds == [] {
      assert items + Values(ds) == items && ArgsOfAll(ds) + rest == rest;
    } else {
      var more := ArgsOfAll(ds[1..]) + rest;
      assert ArgsOfAll(ds) + rest == ArgsOf(ds[0]) + more;
      DocDenotes(ds[0], more);
      var items' := items + [ValueOf(ds[0])];
      ListDenotes(ds[1..], rest, items');
      assert Shapes(ds)[1..] == Shapes(ds[1..]) && Shapes(ds)[0] == ShapeOf(ds[0]);
      assert Values(ds) == [ValueOf(ds[0])] + Values(ds[1..]);
      assert items' + Values(ds[1..]) == items + Values(ds);
    }
  }

  lemma {:induction false} RecordDenotes(fs: seq<Field>, rest: seq<string>, fields: map<string, Value>)
    requires forall i | 0 <= i < |fs| :: InRange(fs[i].doc)
    ensures DenoteMap(FieldShapes(fs), ArgsOfFields(fs) + rest, fields) == Some((MapOf(fs, fields), rest))
    decreases fs, 0
  {
    if fs == [] {
      assert ArgsOfFields(fs) + rest == rest;
    } else {
      var more := ArgsOfFields(fs[1..]) + rest;
      var all := ArgsOfFields(fs) + rest;
      assert all == [fs[0].key] + (ArgsOf(fs[0].doc) + more);
      assert all[1..] == ArgsOf(fs[0].doc) + more;
      DocDenotes(fs[0].doc, more);
      RecordDenotes(fs[1..], rest, fields[fs[0].key := ValueOf(fs[0].doc)]);
      assert FieldShapes(fs)[1..] == FieldShapes(fs[1..]);
    }
  }

  /** Writing a value out and parsing it gives it back, and leaves exactly what followed in either. */
  lemma RoundTrip(d: Doc, moreSig: string, moreArgs: seq<string>)
    requires InRange(d)
    ensures ParseValue(Text(ShapeOf(d)) + moreSig, ArgsOf(d) + moreArgs) == Parsed(ValueOf(d), moreSig, moreArgs)
  {
    DocDenotes(d, moreArgs);
    AcceptsClosed(ShapeOf(d), moreSig, ArgsOf(d) + moreArgs);
  }

  /** Strings, `i64` integers, null, and lists and maps of such values. */
  predicate Printable(v: Value) {
    match v
    case Null => true
    case Bool(_) => false
    case Number(n) => IsI64(n)
    case String(_) => true
    case Array(items) => forall i | 0 <= i < |items| :: Printable(items[i])
    case Object(fields) => forall key | key in fields :: Printable(fields[key])
  }

  /** Every such value can be written out, with distinct keys. */
  lemma {:induction false} EveryValue(v: Value) returns (d: Doc)
    requires Printable(v)
    ensures InRange(d) && ValueOf(d) == v
    decreases v, 1
  {
    match v
    case Null => d := Nothing;
    case Number(n) => d := Int(n);
    case String(t) => d := Text_(t);
    case Array(items) =>
      var ds := EveryList(v, items);
      d := List(ds);
      assert Values(ds) == items;
    case Object(fields) =>
      var fs := EveryMap(v, fields);
      assert map[] + fields == fields;
      MapOfDistinct(fs, map[], fields);
      d := Record(fs);
  }

  lemma {:induction false} EveryList(v: Value, items: seq<Value>) returns (ds: seq<Doc>)
    requires forall i | 0 <= i < |items| :: items[i] < v && Printable(items[i])
    ensures |ds| == |items| && forall i | 0 <= i < |ds| :: InRange(ds[i]) && ValueOf(ds[i]) == items[i]
    decreases v, 0, |items|
  {
    if items == [] {
      ds := [];
    } else {
      var n := |items| - 1;
      var front := EveryList(v, items[..n]);
      var last := EveryValue(items[n]);
      ds := front + [last];
    }
  }

  /** The fields say what `fields` says, each key once. */
  ghost predicate Writes(fs: seq<Field>, fields: map<string, Value>) {
    && (forall i | 0 <= i < |fs| :: InRange(fs[i].doc) && fs[i].key in fields
         && fields[fs[i].key] == ValueOf(fs[i].doc))
    && (forall i, j | 0 <= i < j < |fs| :: fs[i].key != fs[j].key)
    && (forall key | key in fields :: exists i :: 0 <= i < |fs| && fs[i].key == key)
  }

  lemma {:induction false} EveryMap(v: Value, fields: map<string, Value>) returns (fs: seq<Field>)
    requires forall key | key in fields :: fields[key] < v && Printable(fields[key])
    ensures Writes(fs, fields)
    decreases v, 0, |fields|
  {
    if fields == map[] {
      fs := [];
    } else {
      var key :| key in fields;
      SmallerWithout(fields, key);
      var more := EveryMap(v, fields - {key});
      var d := EveryValue(fields[key]);
      fs := [Field(key, d)] + more;
      WritesFirst(fs, fields);
    }
  }

  lemma SmallerWithout(fields: map<string, Value>, key: string)
    requires key in fields
    ensures |fields - {key}| < |fields|
  {
    assert (fields - {key}).Keys == fields.Keys - {key};
  }

  lemma WritesFirst(fs: seq<Field>, fields: map<string, Value>)
    requires fs != [] && fs[0].key in fields && InRange(fs[0].doc) && ValueOf(fs[0].doc) == fields[fs[0].key]
    requires Writes(fs[1..], fields - {fs[0].key})
    ensures Writes(fs, fields)
  {
    var more, rest := fs[1..], fields - {fs[0].key};
    assert forall i | 0 < i < |fs| :: fs[i] == more[i - 1];
    forall key | key in fields && key != fs[0].key ensures exists i :: 0 <= i < |fs| && fs[i].key == key {
      assert key in rest;
      var i :| 0 <= i < |more| && more[i].key == key;
      assert fs[i + 1].key == key;
    }
  }

  lemma WritesRest(fs: seq<Field>, fields: map<string, Value>)
    requires Writes(fs, fields) && fs != []
    ensures Writes(fs[1..], fields - {fs[0].key})
  {
    forall key | key in fields - {fs[0].key} ensures exists i :: 0 <= i < |fs[1..]| && fs[1..][i].key == key {
      var i :| 0 <= i < |fs| && fs[i].key == key;
      assert fs[1..][i - 1].key == key;
    }
  }

  lemma {:induction false} MapOfDistinct(fs: seq<Field>, before: map<string, Value>, fields: map<string, Value>)
    requires Writes(fs, fields) && before.Keys !! fields.Keys
    ensures MapOf(fs, before) == before + fields
  {
    if fs == [] {
      assert fields == map[];
    } else {
      WritesRest(fs, fields);
      MapSplit(before, fields, fs[0].key);
      MapOfDistinct(fs[1..], before[fs[0].key := fields[fs[0].key]], fields - {fs[0].key});
    }
  }

  lemma MapSplit(before: map<string, Value>, fields: map<string, Value>, key: string)
    requires key in fields && before.Keys !! fields.Keys
    ensures before[key := fields[key]] + (fields - {key}) == before + fields
    ensures before[key := fields[key]].Keys !! (fields - {key}).Keys
  {
  }

  /** So for every printable value there is a signature and an argument list that parse to it, whatever follows. */
  lemma ValuesRoundTrip(v: Value, moreSig: string, moreArgs: seq<string>) returns (d: Doc)
    requires Printable(v)
    ensures ValueOf(d) == v
    ensures ParseValue(Text(ShapeOf(d)) + moreSig, ArgsOf(d) + moreArgs) == Parsed(v, moreSig, moreArgs)
  {
    d := EveryValue(v);
    RoundTrip(d, moreSig, moreArgs);
  }
}

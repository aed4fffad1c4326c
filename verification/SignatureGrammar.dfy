/** The signature language of `rob`: its grammar, what a signature denotes, and why the parser accepts just that. */
module SignatureGrammar {
  import opened Rpc
  import opened Signature

  /** The grammar: string, integer, null, a map of entries, a list of items. */
  datatype Shape = S | I | N | M(entries: seq<Shape>) | L(items: seq<Shape>)

  function Text(sh: Shape): (s: string)
    ensures s != "" && s[0] != '}' && s[0] != ')'
  {
    match sh
    case S => "s"
    case I => "i"
    case N => "n"
    case M(es) => "{" + TextAll(es) + "}"
    case L(es) => "(" + TextAll(es) + ")"
  }

  function TextAll(shs: seq<Shape>): string {
    if shs == [] then "" else Text(shs[0]) + TextAll(shs[1..])
  }

  function Children(sh: Shape): seq<Shape> {
    match sh
    case M(es) => es
    case L(es) => es
    case _ => []
  }

  predicate Bracketed(sh: Shape) {
    sh.M? || sh.L?
  }

  /** The last `k` brackets of the shape, each the last child of the one before, can be left unclosed. */
  predicate CanOpen(sh: Shape, k: nat)
    decreases k
  {
    k == 0 || (Bracketed(sh) && (k == 1 || (Children(sh) != [] && CanOpen(Children(sh)[|Children(sh)| - 1], k - 1))))
  }

  /** The shape's text with its last `k` brackets unclosed. */
  function OpenText(sh: Shape, k: nat): (s: string)
    requires CanOpen(sh, k)
    ensures s != "" && s[0] != '}' && s[0] != ')'
    decreases k
  {
    if k == 0 then Text(sh) else (if sh.M? then "{" else "(") + OpenBody(Children(sh), k)
  }

  /** What follows an unclosed bracket: `k` counts that bracket and those open in its last child. */
  function OpenBody(shs: seq<Shape>, k: nat): string
    requires k == 1 || (k > 1 && shs != [] && CanOpen(shs[|shs| - 1], k - 1))
    decreases k, 0
  {
    if k == 1 then TextAll(shs) else TextAll(shs[..|shs| - 1]) + OpenText(shs[|shs| - 1], k - 1)
  }

  /** The brackets that are missing, innermost first. */
  function Closers(sh: Shape, k: nat): (s: string)
    requires CanOpen(sh, k)
    ensures |s| == k && forall c | c in s :: c == '}' || c == ')'
    decreases k
  {
    if k == 0 then ""
    else (if k == 1 then "" else Closers(Children(sh)[|Children(sh)| - 1], k - 1)) + (if sh.M? then "}" else ")")
  }

  lemma {:induction false} TextAllAppend(shs: seq<Shape>, more: seq<Shape>)
    ensures TextAll(shs + more) == TextAll(shs) + TextAll(more)
  {
    if shs == [] {
      assert shs + more == more;
    } else {
      assert (shs + more)[1..] == shs[1..] + more;
      TextAllAppend(shs[1..], more);
    }
  }

  lemma Enclosed(o: string, body: string, closers: string, c: string, all: string)
    requires body + closers == all
    ensures (o + body) + (closers + c) == o + all + c
  {
    assert (o + body) + (closers + c) == o + (body + closers) + c;
  }

  lemma Following(front: string, open: string, closers: string, all: string)
    requires open + closers == all
    ensures (front + open) + closers == front + all
  {
    assert (front + open) + closers == front + (open + closers);
  }

  /** Appending the missing brackets gives the closed text. */
  lemma {:induction false} Closing(sh: Shape, k: nat)
    requires CanOpen(sh, k)
    ensures OpenText(sh, k) + Closers(sh, k) == Text(sh)
    decreases k
  {
    if k > 0 {
      var es := Children(sh);
      var closers := if k == 1 then "" else Closers(es[|es| - 1], k - 1);
      if k > 1 {
        var front, last := es[..|es| - 1], es[|es| - 1];
        Closing(last, k - 1);
        Following(TextAll(front), OpenText(last, k - 1), closers, Text(last));
        assert es == front + [last] && TextAll([last]) == Text(last) + TextAll([]);
        TextAllAppend(front, [last]);
      }
      Enclosed(if sh.M? then "{" else "(", OpenBody(es, k), closers, if sh.M? then "}" else ")", TextAll(es));
    }
  }

  // ---------- what a shape denotes ----------

  /** A value and the arguments left over. */
  datatype Meaning = Meaning(value: Value, args: seq<string>)

  function Denote(sh: Shape, args: seq<string>): Option<Meaning> {
    match sh
    case S => if args == [] then None else Some(Meaning(String(args[0]), args[1..]))
    case I =>
      if args == [] || ParseI64(args[0]).None? then None
      else Some(Meaning(Number(ParseI64(args[0]).value), args[1..]))
    case N => Some(Meaning(Null, args))
    case M(es) =>
      var r := DenoteMap(es, args, map[]);
      if r.None? then None else Some(Meaning(Object(r.value.0), r.value.1))
    case L(es) =>
      var r := DenoteList(es, args, []);
      if r.None? then None else Some(Meaning(Array(r.value.0), r.value.1))
  }

  /** Each entry takes a key, then its value's arguments; a later entry replaces an earlier one with the same key. */
  function DenoteMap(es: seq<Shape>, args: seq<string>, fields: map<string, Value>)
    : Option<(map<string, Value>, seq<string>)>
  {
    if es == [] then Some((fields, args))
    else if args == [] then None
    else
      var r := Denote(es[0], args[1..]);
      if r.None? then None else DenoteMap(es[1..], r.value.args, fields[args[0] := r.value.value])
  }

  function DenoteList(es: seq<Shape>, args: seq<string>, items: seq<Value>): Option<(seq<Value>, seq<string>)> {
    if es == [] then Some((items, args))
    else
      var r := Denote(es[0], args);
      if r.None? then None else DenoteList(es[1..], r.value.args, items + [r.value.value])
  }

  // ---------- the parser accepts the grammar ----------

  /** `p` is the parse that `m` predicts, with `rest` left of the signature. */
  predicate Predicted(p: Parse, m: Option<Meaning>, rest: string) {
    if m.None? then p.Rejected? else p == Parsed(m.value.value, rest, m.value.args)
  }

  lemma {:induction false} AcceptsClosed(sh: Shape, rest: string, args: seq<string>)
    ensures Predicted(ParseValue(Text(sh) + rest, args), Denote(sh, args), rest)
    decreases sh, 1
  {
    var sig := Text(sh) + rest;
    match sh
    case M(es) =>
      var tail := "}" + rest;
      assert sig[1..] == TextAll(es) + tail;
      AcceptsEntries(es, tail, args, map[]);
      assert tail[1..] == rest;
    case L(es) =>
      var tail := ")" + rest;
      assert sig[1..] == TextAll(es) + tail;
      AcceptsItems(es, tail, args, []);
      assert tail[1..] == rest;
    case _ => assert sig[1..] == rest;
  }

  lemma {:induction false} AcceptsEntries(es: seq<Shape>, tail: string, args: seq<string>, fields: map<string, Value>)
    ensures var m := DenoteMap(es, args, fields);
            if m.None? then ParseMap(TextAll(es) + tail, args, fields).Rejected?
            else ParseMap(TextAll(es) + tail, args, fields) == ParseMap(tail, m.value.1, m.value.0)
    decreases es, 0
  {
    if es == [] {
      assert TextAll(es) + tail == tail;
    } else {
      var rest := TextAll(es[1..]) + tail;
      assert TextAll(es) + tail == Text(es[0]) + rest;
      if args != [] {
        AcceptsClosed(es[0], rest, args[1..]);
        var r := Denote(es[0], args[1..]);
        if r.Some? { AcceptsEntries(es[1..], tail, r.value.args, fields[args[0] := r.value.value]); }
      }
    }
  }

  lemma {:induction false} AcceptsItems(es: seq<Shape>, tail: string, args: seq<string>, items: seq<Value>)
    ensures var m := DenoteList(es, args, items);
            if m.None? then ParseList(TextAll(es) + tail, args, items).Rejected?
            else ParseList(TextAll(es) + tail, args, items) == ParseList(tail, m.value.1, m.value.0)
    decreases es, 0
  {
    if es == [] {
      assert TextAll(es) + tail == tail;
    } else {
      var rest := TextAll(es[1..]) + tail;
      assert TextAll(es) + tail == Text(es[0]) + rest;
      AcceptsClosed(es[0], rest, args);
      var r := Denote(es[0], args);
      if r.Some? { AcceptsItems(es[1..], tail, r.value.args, items + [r.value.value]); }
    }
  }

  lemma {:induction false} DenoteMapLast(front: seq<Shape>, last: Shape, args: seq<string>, fields: map<string, Value>)
    ensures var m := DenoteMap(front, args, fields);
            DenoteMap(front + [last], args, fields) ==
              if m.None? then None else DenoteMap([last], m.value.1, m.value.0)
  {
    if front == [] {
      assert front + [last] == [last];
    } else {
      assert (front + [last])[1..] == front[1..] + [last];
      if args != [] {
        var r := Denote(front[0], args[1..]);
        if r.Some? { DenoteMapLast(front[1..], last, r.value.args, fields[args[0] := r.value.value]); }
      }
    }
  }

  lemma {:induction false} DenoteListLast(front: seq<Shape>, last: Shape, args: seq<string>, items: seq<Value>)
    ensures var m := DenoteList(front, args, items);
            DenoteList(front + [last], args, items) ==
              if m.None? then None else DenoteList([last], m.value.1, m.value.0)
  {
    if front == [] {
      assert front + [last] == [last];
    } else {
      assert (front + [last])[1..] == front[1..] + [last];
      var r := Denote(front[0], args);
      if r.Some? { DenoteListLast(front[1..], last, r.value.args, items + [r.value.value]); }
    }
  }

  /** A signature that ends inside `k` brackets parses as if they were closed. */
  lemma {:induction false} AcceptsOpen(sh: Shape, k: nat, args: seq<string>)
    requires CanOpen(sh, k)
    ensures Predicted(ParseValue(OpenText(sh, k), args), Denote(sh, args), "")
    decreases k, 0
  {
    var sig := OpenText(sh, k);
    if k == 0 {
      assert Text(sh) + "" == sig;
      AcceptsClosed(sh, "", args);
    } else {
      var es := Children(sh);
      assert sig[1..] == OpenBody(es, k);
      if k == 1 {
        assert TextAll(es) + "" == sig[1..];
        if sh.M? { AcceptsEntries(es, "", args, map[]); } else { AcceptsItems(es, "", args, []); }
      } else {
        var front, last := es[..|es| - 1], es[|es| - 1];
        assert es == front + [last];
        if sh.M? { OpenEntries(front, last, k - 1, args, map[]); } else { OpenItems(front, last, k - 1, args, []); }
      }
    }
  }

  lemma {:induction false} OpenEntries(front: seq<Shape>, last: Shape, k: nat, args: seq<string>,
                                       fields: map<string, Value>)
    requires CanOpen(last, k)
    ensures var m := DenoteMap(front + [last], args, fields);
            var p := ParseMap(TextAll(front) + OpenText(last, k), args, fields);
            if m.None? then p.Rejected? else p == Parsed(Object(m.value.0), "", m.value.1)
    decreases k, 1
  {
    DenoteMapLast(front, last, args, fields);
    AcceptsEntries(front, OpenText(last, k), args, fields);
    var m := DenoteMap(front, args, fields);
    if m.Some? && m.value.1 != [] {
      AcceptsOpen(last, k, m.value.1[1..]);
      assert [last][1..] == [];
    }
  }

  lemma {:induction false} OpenItems(front: seq<Shape>, last: Shape, k: nat, args: seq<string>, items: seq<Value>)
    requires CanOpen(last, k)
    ensures var m := DenoteList(front + [last], args, items);
            var p := ParseList(TextAll(front) + OpenText(last, k), args, items);
            if m.None? then p.Rejected? else p == Parsed(Array(m.value.0), "", m.value.1)
    decreases k, 1
  {
    DenoteListLast(front, last, args, items);
    AcceptsItems(front, OpenText(last, k), args, items);
    var m := DenoteList(front, args, items);
    if m.Some? {
      AcceptsOpen(last, k, m.value.1);
      assert [last][1..] == [];
    }
  }

  // ---------- and nothing else ----------

  /** A grammatical prefix of `sig`, with `k` brackets unclosed only if nothing follows. */
  predicate IsPrefix(sig: string, sh: Shape, k: nat, rest: string) {
    CanOpen(sh, k) && sig == OpenText(sh, k) + rest && (k > 0 ==> rest == "")
  }

  /** The text of a body: closed by its bracket, or open to the end of the signature. */
  predicate IsBody(sig: string, es: seq<Shape>, k: nat, closer: char, rest: string) {
    if k == 0 then sig == TextAll(es) + [closer] + rest
    else (k == 1 || (es != [] && CanOpen(es[|es| - 1], k - 1))) && sig == OpenBody(es, k) && rest == ""
  }

  lemma BodyCons(first: Shape, j: nat, sig: string, rest: string, es: seq<Shape>, k: nat, closer: char, end: string)
    returns (k': nat)
    requires IsPrefix(sig, first, j, rest) && IsBody(rest, es, k, closer, end)
    requires rest == "" ==> es == [] && k == 1
    ensures IsBody(sig, [first] + es, k', closer, end)
  {
    var all := [first] + es;
    TextAllFirst(first, es);
    if j > 0 {
      k' := j + 1;
      assert all == [first] && all[..0] == [];
      assert OpenBody(all, k') == "" + OpenText(first, j);
    } else {
      k' := k;
      if k > 1 {
        var front := es[..|es| - 1];
        assert all[..|all| - 1] == [first] + front;
        TextAllFirst(first, front);
        assert OpenBody(all, k) == (Text(first) + TextAll(front)) + OpenText(es[|es| - 1], k - 1);
      }
    }
  }

  lemma TextAllFirst(first: Shape, more: seq<Shape>)
    ensures TextAll([first] + more) == Text(first) + TextAll(more)
  {
    assert ([first] + more)[1..] == more;
  }

  /** A successful parse has read the prefix of a shape, and its value is what the shape denotes. */
  lemma {:induction false} AcceptsOnly(sig: string, args: seq<string>) returns (sh: Shape, k: nat)
    requires ParseValue(sig, args).Parsed?
    ensures var p := ParseValue(sig, args);
            IsPrefix(sig, sh, k, p.sig) && Denote(sh, args) == Some(Meaning(p.value, p.args))
    decreases |sig|, 0
  {
    var p := ParseValue(sig, args);
    k := 0;
    match sig[0]
    case 's' => sh := S;
    case 'i' => sh := I;
    case 'n' => sh := N;
    case '{' =>
      var es, j := OnlyEntries(sig[1..], args, map[]);
      sh, k := M(es), j;
      assert sig == "{" + sig[1..];
    case '(' =>
      var es, j := OnlyItems(sig[1..], args, []);
      sh, k := L(es), j;
      assert sig == "(" + sig[1..];
    case _ =>
  }

  lemma {:induction false} OnlyEntries(sig: string, args: seq<string>, fields: map<string, Value>)
    returns (es: seq<Shape>, k: nat)
    requires ParseMap(sig, args, fields).Parsed?
    ensures var p := ParseMap(sig, args, fields); var m := DenoteMap(es, args, fields);
            && IsBody(sig, es, k, '}', p.sig) && (sig == "" ==> es == [] && k == 1)
            && m.Some? && p.value == Object(m.value.0) && p.args == m.value.1
    decreases |sig|, 1
  {
    if sig == "" {
      es, k := [], 1;
    } else if sig[0] == '}' {
      es, k := [], 0;
    } else {
      var v := ParseValue(sig, args[1..]);
      var first, j := AcceptsOnly(sig, args[1..]);
      var more, i := OnlyEntries(v.sig, v.args, fields[args[0] := v.value]);
      es := [first] + more;
      k := BodyCons(first, j, sig, v.sig, more, i, '}', ParseMap(sig, args, fields).sig);
      assert es[1..] == more;
    }
  }

  lemma {:induction false} OnlyItems(sig: string, args: seq<string>, items: seq<Value>) returns (es: seq<Shape>, k: nat)
    requires ParseList(sig, args, items).Parsed?
    ensures var p := ParseList(sig, args, items); var m := DenoteList(es, args, items);
            && IsBody(sig, es, k, ')', p.sig) && (sig == "" ==> es == [] && k == 1)
            && m.Some? && p.value == Array(m.value.0) && p.args == m.value.1
    decreases |sig|, 1
  {
    if sig == "" {
      es, k := [], 1;
    } else if sig[0] == ')' {
      es, k := [], 0;
    } else {
      var v := ParseValue(sig, args);
      var first, j := AcceptsOnly(sig, args);
      var more, i := OnlyItems(v.sig, v.args, items + [v.value]);
      es := [first] + more;
      k := BodyCons(first, j, sig, v.sig, more, i, ')', ParseList(sig, args, items).sig);
      assert es[1..] == more;
    }
  }
}

/** The SOAP value extractor of the UPnP IGD probe: a two-stack machine over the tokens an
    XML decoder delivers before it stops. */
module Soap {
  import opened Text
  import opened Options

  /** A decoder token; Mark stands for comments, directives and processing instructions. */
  datatype Token = StartElement(name: string) | CharData(text: string) | EndElement(name: string) | Mark

  /** A sequence of sibling nodes, each element carrying its own children. */
  datatype Forest =
    | Leaf
    | TextThen(text: string, rest: Forest)
    | MarkThen(rest: Forest)
    | ElementThen(name: string, children: Forest, rest: Forest)

  /** The token stream of a document. */
  function Tokens(f: Forest): seq<Token> {
    match f
    case Leaf => []
    case TextThen(t, rest) => [CharData(t)] + Tokens(rest)
    case MarkThen(rest) => [Mark] + Tokens(rest)
    case ElementThen(n, children, rest) =>
      [StartElement(n)] + Tokens(children) + [EndElement(n)] + Tokens(rest)
  }

  /** The character data that belongs to an element itself, not to its descendants. */
  function DirectText(f: Forest): string {
    match f
    case Leaf => ""
    case TextThen(t, rest) => t + DirectText(rest)
    case MarkThen(rest) => DirectText(rest)
    case ElementThen(_, _, rest) => DirectText(rest)
  }

  /** The elements of a document with their direct text, in the order they close. */
  datatype Closed = Closed(name: string, text: string)

  function Closings(f: Forest): seq<Closed> {
    match f
    case Leaf => []
    case TextThen(_, rest) => Closings(rest)
    case MarkThen(rest) => Closings(rest)
    case ElementThen(n, children, rest) =>
      Closings(children) + [Closed(n, DirectText(children))] + Closings(rest)
  }

  /** What a document says about a name: the trimmed text of the last element of that name to
      close with text that is not blank. */
  function LastText(cs: seq<Closed>, name: string): Option<string> {
    if cs == [] then None
    else
      var last := cs[|cs| - 1];
      if last.name == name && Trim(last.text) != "" then Some(Trim(last.text))
      else LastText(cs[..|cs| - 1], name)
  }

  function Lookup(m: map<string, string>, name: string): Option<string> {
    if name in m then Some(m[name]) else None
  }

  /** The machine between two tokens. */
  datatype Machine = Machine(stack: seq<string>, chars: seq<string>, values: map<string, string>)

  function Front<T>(s: seq<T>): seq<T>
    requires s != []
  {
    s[..|s| - 1]
  }

  function Last<T>(s: seq<T>): T
    requires s != []
  {
    s[|s| - 1]
  }

  ghost predicate Aligned(m: Machine) {
    |m.stack| == |m.chars|
  }

  function Close(values: map<string, string>, name: string, text: string): map<string, string> {
    if Trim(text) != "" then values[name := Trim(text)] else values
  }

  function Step(m: Machine, t: Token): (r: Machine)
    requires Aligned(m)
    ensures Aligned(r)
  {
    match t
    case StartElement(n) => Machine(m.stack + [n], m.chars + [""], m.values)
    case CharData(s) =>
      if m.chars == [] then m else m.(chars := Front(m.chars) + [Last(m.chars) + s])
    case EndElement(_) =>
      if m.stack == [] then m
      else Machine(Front(m.stack), Front(m.chars), Close(m.values, Last(m.stack), Last(m.chars)))
    case Mark => m
  }

  /** On any token stream at all, well formed or not, the two stacks keep equal length. */
  function Run(m: Machine, ts: seq<Token>): (r: Machine)
    requires Aligned(m)
    ensures Aligned(r)
  {
    if ts == [] then m else Step(Run(m, Front(ts)), Last(ts))
  }

  const Start := Machine([], [], map[])

  method ParseSOAPValues(tokens: seq<Token>) returns (values: map<string, string>)
    ensures values == Run(Start, tokens).values
  {
    values := map[];
    var stack: seq<string> := [];
    var chars: seq<string> := [];
    for i := 0 to |tokens|
      invariant |stack| == |chars|
      invariant Machine(stack, chars, values) == Run(Start, tokens[..i])
    {
      assert Front(tokens[..i + 1]) == tokens[..i];
      match tokens[i]
      case StartElement(n) =>
        stack := stack + [n];
        chars := chars + [""];
      case CharData(s) =>
        if |chars| > 0 {
          chars := chars[|chars| - 1 := chars[|chars| - 1] + s];
        }
      case EndElement(_) =>
        if |stack| == 0 {
          continue;
        }
        var name := stack[|stack| - 1];
        var text := Trim(chars[|chars| - 1]);
        stack := stack[..|stack| - 1];
        chars := chars[..|chars| - 1];
        if text != "" {
          values := values[name := text];
        }
      case Mark =>
    }
    assert tokens[..|tokens|] == tokens;
  }

  lemma {:induction false} RunConcat(m: Machine, a: seq<Token>, b: seq<Token>)
    requires Aligned(m)
    ensures Run(m, a + b) == Run(Run(m, a), b)
  {
    if b == [] {
      assert a + b == a;
    } else {
      RunConcat(m, a, Front(b));
      assert Front(a + b) == a + Front(b);
      assert Last(a + b) == Last(b);
    }
  }

  lemma RunOne(m: Machine, t: Token)
    requires Aligned(m)
    ensures Run(m, [t]) == Step(m, t)
  {
    assert Front([t]) == [];
    assert Run(m, []) == m;
  }

  /** The values a machine has after closing the elements of `cs` in order. */
  function CloseAll(values: map<string, string>, cs: seq<Closed>): map<string, string> {
    if cs == [] then values else Close(CloseAll(values, Front(cs)), Last(cs).name, Last(cs).text)
  }

  lemma {:induction false} CloseAllConcat(values: map<string, string>, a: seq<Closed>, b: seq<Closed>)
    ensures CloseAll(values, a + b) == CloseAll(CloseAll(values, a), b)
  {
    if b == [] {
      assert a + b == a;
    } else {
      CloseAllConcat(values, a, Front(b));
      assert Front(a + b) == a + Front(b);
      assert Last(a + b) == Last(b);
    }
  }

  lemma {:induction false} CloseAllLookup(values: map<string, string>, cs: seq<Closed>, name: string)
    ensures Lookup(CloseAll(values, cs), name)
         == if LastText(cs, name).None? then Lookup(values, name) else LastText(cs, name)
  {
    if cs != [] {
      CloseAllLookup(values, Front(cs), name);
    }
  }

  /** `s` appended to the buffer on top, if there is one. */
  function Absorb(chars: seq<string>, s: string): seq<string> {
    if chars == [] then chars else Front(chars) + [Last(chars) + s]
  }

  /** Reading a whole forest leaves the element stack as it was, adds the forest's direct text to
      the buffer on top, and records every element it closed. */
  lemma {:induction false} RunForest(m: Machine, f: Forest)
    requires Aligned(m)
    ensures Run(m, Tokens(f))
         == Machine(m.stack, Absorb(m.chars, DirectText(f)), CloseAll(m.values, Closings(f)))
    decreases f
  {
    match f
    case Leaf =>
      if m.chars != [] {
        assert Last(m.chars) + "" == Last(m.chars);
      }
    case TextThen(t, rest) =>
      RunConcat(m, [CharData(t)], Tokens(rest));
      RunOne(m, CharData(t));
      RunForest(Step(m, CharData(t)), rest);
      if m.chars != [] {
        assert Last(m.chars) + t + DirectText(rest) == Last(m.chars) + (t + DirectText(rest));
      }
    case MarkThen(rest) =>
      RunConcat(m, [Mark], Tokens(rest));
      RunOne(m, Mark);
      RunForest(m, rest);
    case ElementThen(n, children, rest) =>
      var m1 := Step(m, StartElement(n));
      var m2 := Run(m1, Tokens(children));
      var m3 := Step(m2, EndElement(n));
      RunOne(m, StartElement(n));
      RunOne(m2, EndElement(n));
      RunConcat(m, [StartElement(n)], Tokens(children));
      RunConcat(m, [StartElement(n)] + Tokens(children), [EndElement(n)]);
      RunConcat(m, [StartElement(n)] + Tokens(children) + [EndElement(n)], Tokens(rest));
      RunForest(m1, children);
      RunForest(m3, rest);
      AbsorbOnTop(m.chars, DirectText(children));
      EndPops(m.stack, m.chars, n, DirectText(children), m2.values);
      CloseAllNext(m.values, Closings(children), Closed(n, DirectText(children)));
      var here := [Closed(n, DirectText(children))];
      CloseAllConcat(m.values, Closings(children), here);
      CloseAllConcat(m.values, Closings(children) + here, Closings(rest));
      CloseAllConcat(m3.values, [], Closings(rest));
  }

  lemma EndPops(stack: seq<string>, chars: seq<string>, name: string, text: string, values: map<string, string>)
    requires |stack| == |chars|
    ensures Step(Machine(stack + [name], chars + [text], values), EndElement(name))
         == Machine(stack, chars, Close(values, name, text))
  {
    assert Front(stack + [name]) == stack && Front(chars + [text]) == chars;
  }

  lemma CloseAllNext(values: map<string, string>, cs: seq<Closed>, c: Closed)
    ensures CloseAll(values, cs + [c]) == Close(CloseAll(values, cs), c.name, c.text)
  {
    assert Front(cs + [c]) == cs;
  }

  lemma AbsorbOnTop(chars: seq<string>, s: string)
    ensures Absorb(chars + [""], s) == chars + [s]
  {
    assert Front(chars + [""]) == chars;
    assert "" + s == s;
  }

  /** The loop computes the recursive meaning of the document, name by name. */
  lemma ParseMeansLastText(f: Forest, name: string)
    ensures Lookup(Run(Start, Tokens(f)).values, name) == LastText(Closings(f), name)
  {
    RunForest(Start, f);
    CloseAllLookup(map[], Closings(f), name);
  }

  /** The loop reads a document whose elements are all properly closed back to an empty stack. */
  lemma ParseEndsBalanced(f: Forest)
    ensures Run(Start, Tokens(f)).stack == []
  {
    RunForest(Start, f);
  }

  /** Whatever the stream, a recorded value is trimmed and not blank. */
  lemma {:induction false} ValuesTrimmed(ts: seq<Token>, name: string)
    requires name in Run(Start, ts).values
    ensures var v := Run(Start, ts).values[name]; v != "" && Trim(v) == v
  {
    var before := Run(Start, Front(ts));
    if name in before.values {
      ValuesTrimmed(Front(ts), name);
    }
    if Last(ts).EndElement? && before.stack != [] {
      TrimIdempotent(Last(before.chars));
    }
  }

  /** A decoder that stops early costs nothing already closed: text read after an element's end tag
      can only be recorded by a later end tag. */
  lemma {:induction false} TruncationKeepsClosed(ts: seq<Token>, more: seq<Token>)
    requires forall i | 0 <= i < |more| :: !more[i].EndElement?
    ensures Run(Start, ts + more).values == Run(Start, ts).values
  {
    if more == [] {
      assert ts + more == ts;
    } else {
      TruncationKeepsClosed(ts, Front(more));
      assert Front(ts + more) == ts + Front(more);
      assert Last(ts + more) == Last(more);
    }
  }
}

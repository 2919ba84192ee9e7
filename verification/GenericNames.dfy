/** Generic type names as strings: taking `Base<A,B<C>>` apart, putting it together again,
    substituting type parameters, and unifying a pattern with a type. */
module GenericNames {
  datatype Option<T> = None | Some(value: T)

  datatype Name = Name(base: string, arguments: seq<string>)

  predicate Starts(s: string, prefix: string) { prefix <= s }

  predicate Ends(s: string, suffix: string) { |suffix| <= |s| && s[|s| - |suffix|..] == suffix }

  function Chop(s: string, n: nat): string
    requires n <= |s|
  {
    s[..|s| - n]
  }

  // ---- Printing and parsing ----

  function Join(arguments: seq<string>): string {
    if |arguments| == 0 then ""
    else if |arguments| == 1 then arguments[0]
    else arguments[0] + "," + Join(arguments[1..])
  }

  function Print(n: Name): string { n.base + "<" + Join(n.arguments) + ">" }

  function Prepend(arguments: seq<string>, rest: Option<seq<string>>): Option<seq<string>> {
    if rest.None? then None else Some(arguments + rest.value)
  }

  /** Split at the commas outside angle brackets; `current` is the argument being read.  A
      bracket may stay open at the end, but none may close that was not opened. */
  function Split(s: string, depth: nat, current: string): Option<seq<string>> {
    if s == "" then Some([current])
    else if s[0] == '<' then Split(s[1..], depth + 1, current + [s[0]])
    else if s[0] == '>' then if depth == 0 then None else Split(s[1..], depth - 1, current + [s[0]])
    else if s[0] == ',' && depth == 0 then Prepend([current], Split(s[1..], 0, ""))
    else Split(s[1..], depth, current + [s[0]])
  }

  /** The first position of `c`, or the length. */
  function Find(s: string, c: char): (r: nat)
    ensures r <= |s| && (r < |s| ==> s[r] == c) && c !in s[..r]
  {
    if s == "" || s[0] == c then 0
    else
      var r := 1 + Find(s[1..], c);
      assert s[..r] == [s[0]] + s[1..][..r - 1];
      r
  }

  /** ParseGenericTypeName. */
  function Parse(s: string): (r: Option<Name>)
    ensures r.Some? ==> forall i | 0 <= i < |r.value.arguments| :: |r.value.arguments[i]| < |s|
  {
    var open := Find(s, '<');
    if open == |s| || s[|s| - 1] != '>' then None
    else
      var arguments := Split(s[open + 1..|s| - 1], 0, "");
      if arguments.None? || open == 0 || "" in arguments.value then None
      else
        SplitJoins(s[open + 1..|s| - 1], 0, "");
        ArgumentsShort(arguments.value);
        Some(Name(s[..open], arguments.value))
  }

  lemma {:induction false} ArgumentsShort(arguments: seq<string>)
    ensures forall i | 0 <= i < |arguments| :: |arguments[i]| <= |Join(arguments)|
  {
    if |arguments| > 1 {
      ArgumentsShort(arguments[1..]);
      assert forall i | 1 <= i < |arguments| :: arguments[i] == arguments[1..][i - 1];
    }
  }

  /** Splitting loses nothing. */
  lemma {:induction false} SplitJoins(s: string, depth: nat, current: string)
    ensures var r := Split(s, depth, current); r.Some? ==> |r.value| > 0 && Join(r.value) == current + s
    decreases |s|
  {
    if s == "" {
    } else {
      assert s == [s[0]] + s[1..];
      if s[0] == ',' && depth == 0 {
        SplitJoins(s[1..], 0, "");
        var rest := Split(s[1..], 0, "");
        if rest.Some? { assert ([current] + rest.value)[1..] == rest.value; }
      } else {
        SplitJoins(s[1..], if s[0] == '<' then depth + 1 else if s[0] == '>' && depth > 0 then depth - 1 else depth,
                   current + [s[0]]);
        assert current + [s[0]] + s[1..] == current + s;
      }
    }
  }

  /** Printing what was parsed gives the same string back. */
  lemma PrintParse(s: string)
    ensures Parse(s).Some? ==> Print(Parse(s).value) == s
  {
    var open := Find(s, '<');
    if Parse(s).Some? {
      SplitJoins(s[open + 1..|s| - 1], 0, "");
      assert s == s[..open] + "<" + s[open + 1..|s| - 1] + ">";
    }
  }

  /** How many brackets are open at the end; None if one closes that was not opened, or a
      comma is outside them. */
  function Open(s: string, depth: nat): Option<nat> {
    if s == "" then Some(depth)
    else if s[0] == '<' then Open(s[1..], depth + 1)
    else if s[0] == '>' then if depth == 0 then None else Open(s[1..], depth - 1)
    else if s[0] == ',' && depth == 0 then None
    else Open(s[1..], depth)
  }

  /** Brackets match and no comma is outside them. */
  predicate Balanced(s: string, depth: nat) { Open(s, depth) == Some(0) }

  predicate WellFormed(n: Name) {
    && n.base != "" && '<' !in n.base && |n.arguments| > 0
    && forall i | 0 <= i < |n.arguments| :: n.arguments[i] != "" && Balanced(n.arguments[i], 0)
  }

  lemma {:induction false} SplitBalanced(a: string, rest: string, depth: nat, current: string)
    requires Balanced(a, depth)
    ensures Split(a + rest, depth, current) == Split(rest, 0, current + a)
    decreases |a|
  {
    if a == "" {
      assert a + rest == rest && current + a == current;
    } else {
      assert (a + rest)[1..] == a[1..] + rest && (a + rest)[0] == a[0];
      assert current + [a[0]] + a[1..] == current + a;
      SplitBalanced(a[1..], rest, if a[0] == '<' then depth + 1 else if a[0] == '>' then depth - 1 else depth,
                    current + [a[0]]);
    }
  }

  lemma {:induction false} SplitLast(a: string, depth: nat, current: string)
    requires Open(a, depth).Some?
    ensures Split(a, depth, current) == Some([current + a])
    decreases |a|
  {
    if a == "" {
      assert current + a == current;
    } else {
      assert current + [a[0]] + a[1..] == current + a;
      SplitLast(a[1..], if a[0] == '<' then depth + 1 else if a[0] == '>' then depth - 1 else depth, current + [a[0]]);
    }
  }

  /** Arguments that a list can be split into: in all but the last, brackets match. */
  predicate Separate(arguments: seq<string>) {
    && |arguments| > 0 && Open(arguments[|arguments| - 1], 0).Some?
    && forall i | 0 <= i < |arguments| - 1 :: Balanced(arguments[i], 0)
  }

  lemma {:induction false} SplitOfJoin(arguments: seq<string>)
    requires Separate(arguments)
    ensures Split(Join(arguments), 0, "") == Some(arguments)
  {
    var a := arguments[0];
    if |arguments| == 1 {
      SplitLast(a, 0, "");
      assert "" + a == a && [a] == arguments;
    } else {
      var rest := "," + Join(arguments[1..]);
      assert Join(arguments) == a + rest;
      SplitBalanced(a, rest, 0, "");
      assert rest[1..] == Join(arguments[1..]) && "" + a == a;
      SplitOfJoin(arguments[1..]);
      assert [a] + arguments[1..] == arguments;
    }
  }

  lemma {:induction false} OpenSnoc(s: string, depth: nat, c: char)
    ensures var d := Open(s, depth);
            Open(s + [c], depth) ==
            if d.None? then None
            else if c == '<' then Some(d.value + 1)
            else if c == '>' then if d.value == 0 then None else Some(d.value - 1)
            else if c == ',' && d.value == 0 then None
            else d
    decreases |s|
  {
    if s == "" {
      assert (s + [c])[1..] == "";
    } else {
      assert (s + [c])[1..] == s[1..] + [c] && (s + [c])[0] == s[0];
      if s[0] == '<' { OpenSnoc(s[1..], depth + 1, c); }
      else if s[0] == '>' { if depth > 0 { OpenSnoc(s[1..], depth - 1, c); } }
      else { OpenSnoc(s[1..], depth, c); }
    }
  }

  /** What a list is split into. */
  lemma {:induction false} SplitSeparates(s: string, depth: nat, current: string)
    requires Open(current, 0) == Some(depth)
    ensures var r := Split(s, depth, current); r.Some? ==> Separate(r.value)
    decreases |s|
  {
    hide Open;
    if s != "" {
      OpenSnoc(current, 0, s[0]);
      if s[0] == '<' { SplitSeparates(s[1..], depth + 1, current + [s[0]]); }
      else if s[0] == '>' { if depth > 0 { SplitSeparates(s[1..], depth - 1, current + [s[0]]); } }
      else if s[0] == ',' && depth == 0 {
        NothingOpen();
        SplitSeparates(s[1..], 0, "");
        var rest := Split(s[1..], 0, "");
        if rest.Some? { assert Separate([current] + rest.value); }
      } else { SplitSeparates(s[1..], depth, current + [s[0]]); }
    }
  }

  lemma NothingOpen()
    ensures Open("", 0) == Some(0)
  {
  }

  /** The names a string can be parsed as. */
  predicate Parsable(n: Name) { n.base != "" && '<' !in n.base && "" !in n.arguments && Separate(n.arguments) }

  /** A string is parsed as a name exactly when the name can be parsed and prints as the
      string; every other string is no generic name. */
  lemma ParseExactly(s: string, n: Name)
    ensures Parse(s) == Some(n) <==> Parsable(n) && Print(n) == s
  {
    if Parse(s) == Some(n) {
      PrintParse(s);
      NothingOpen();
      SplitSeparates(s[Find(s, '<') + 1..|s| - 1], 0, "");
    }
    if Parsable(n) && Print(n) == s { ParsesBack(n); }
  }

  lemma ParsesBack(n: Name)
    requires Parsable(n)
    ensures Parse(Print(n)) == Some(n)
  {
    hide Open, Balanced;
    var s, j := Print(n), Join(n.arguments);
    var tail := "<" + j + ">";
    assert s == n.base + tail;
    FindAfter(n.base, tail, '<');
    assert s[..|n.base|] == n.base;
    assert tail[1..|j| + 1] == j;
    assert s[|n.base| + 1..|s| - 1] == tail[1..|j| + 1];
    SplitOfJoin(n.arguments);
  }

  /** Parsing what was printed gives the same name back. */
  lemma ParsePrint(n: Name)
    requires WellFormed(n)
    ensures Parse(Print(n)) == Some(n)
  {
    ParsesBack(n);
  }

  lemma {:induction false} FindAfter(a: string, b: string, c: char)
    requires c !in a && b != "" && b[0] == c
    ensures Find(a + b, c) == |a|
  {
    if a == "" {
      assert a + b == b;
    } else {
      assert (a + b)[1..] == a[1..] + b && (a + b)[0] == a[0];
      FindAfter(a[1..], b, c);
    }
  }

  /** The first position of `c`, or the length. */
  method IndexOf(s: string, c: char) returns (open: nat)
    ensures open == Find(s, c)
  {
    open := 0;
    while open < |s| && s[open] != c
      invariant 0 <= open <= |s| && Find(s, c) == open + Find(s[open..], c)
    {
      assert s[open..][1..] == s[open + 1..];
      open := open + 1;
    }
  }

  /** One character of the argument list, read at `index` in the argument from `start`. */
  lemma SplitStep(s: string, start: nat, index: nat, depth: nat)
    requires start <= index && index + 1 < |s|
    ensures var (now, next) := (s[index..|s| - 1], s[index + 1..|s| - 1]);
            var word, c := s[start..index + 1], s[index];
            Split(now, depth, s[start..index]) ==
            if c == '<' then Split(next, depth + 1, word)
            else if c == '>' then if depth == 0 then None else Split(next, depth - 1, word)
            else if c == ',' && depth == 0 then Prepend([s[start..index]], Split(next, 0, ""))
            else Split(next, depth, word)
  {
    hide Prepend;
    var now := s[index..|s| - 1];
    assert now[0] == s[index] && now[1..] == s[index + 1..|s| - 1];
    assert s[start..index] + [s[index]] == s[start..index + 1];
  }

  lemma PrependNone(front: seq<string>)
    ensures Prepend(front, None) == None
  {
  }

  lemma SplitEnds(front: seq<string>, depth: nat, word: string)
    ensures Prepend(front, Split("", depth, word)) == Some(front + [word])
  {
  }

  /** The same parser as a loop over one string. */
  method ParseGenericTypeName(s: string) returns (r: Option<Name>)
    ensures r == Parse(s)
  {
    hide Split, Prepend;
    var open := IndexOf(s, '<');
    if open == |s| || s[|s| - 1] != '>' { return None; }
    ghost var inner := s[open + 1..|s| - 1];
    var arguments: seq<string> := [];
    var depth, start := 0, open + 1;
    var index := start;
    assert s[start..index] == "";
    PrependNothing(Split(inner, 0, ""));
    while index + 1 < |s|
      invariant open + 1 <= start <= index <= |s| - 1 && depth >= 0
      invariant Prepend(arguments, Split(s[index..|s| - 1], depth, s[start..index])) == Split(inner, 0, "")
    {
      SplitStep(s, start, index, depth);
      if s[index] == '<' { depth := depth + 1; }
      else if s[index] == '>' {
        if depth == 0 {
          PrependNone(arguments);
          return None;
        }
        depth := depth - 1;
      } else if s[index] == ',' && depth == 0 {
        PrependTwice(arguments, s[start..index], Split(s[index + 1..|s| - 1], 0, ""));
        arguments := arguments + [s[start..index]];
        start := index + 1;
        assert s[start..index + 1] == "";
      }
      index := index + 1;
    }
    assert s[index..|s| - 1] == "";
    SplitEnds(arguments, depth, s[start..|s| - 1]);
    arguments := arguments + [s[start..|s| - 1]];
    if open == 0 || "" in arguments { return None; }
    r := Some(Name(s[..open], arguments));
  }

  lemma PrependNothing(rest: Option<seq<string>>)
    ensures Prepend([], rest) == rest
  {
    if rest.Some? { assert [] + rest.value == rest.value; }
  }

  lemma PrependTwice(front: seq<string>, a: string, rest: Option<seq<string>>)
    ensures Prepend(front, Prepend([a], rest)) == Prepend(front + [a], rest)
  {
    if rest.Some? { assert front + ([a] + rest.value) == front + [a] + rest.value; }
  }

  // ---- Function types ----

  function FunctionTypeName(returnType: string, parameters: seq<string>): string
  {
    Print(Name("func", [returnType] + parameters))
  }

  function CFunctionTypeName(returnType: string, parameters: seq<string>): string
  {
    Print(Name("cfunc", [returnType] + parameters))
  }

  datatype Signature = Signature(returnType: string, parameters: seq<string>)

  function ParseSignature(s: string, base: string): Option<Signature> {
    var n := Parse(s);
    if n.None? || n.value.base != base || |n.value.arguments| == 0 then None
    else Some(Signature(n.value.arguments[0], n.value.arguments[1..]))
  }

  /** Appending one parameter after another, as the analyzer does, prints the same name. */
  method BuildFunctionTypeName(base: string, returnType: string, parameters: seq<string>) returns (r: string)
    ensures r == Print(Name(base, [returnType] + parameters))
  {
    r := base + "<" + returnType;
    var i := 0;
    while i < |parameters|
      invariant 0 <= i <= |parameters|
      invariant r == base + "<" + Join([returnType] + parameters[..i])
    {
      JoinSnoc([returnType] + parameters[..i], parameters[i]);
      assert [returnType] + parameters[..i] + [parameters[i]] == [returnType] + parameters[..i + 1];
      r := r + "," + parameters[i];
      i := i + 1;
    }
    assert parameters[..|parameters|] == parameters;
    r := r + ">";
  }

  lemma {:induction false} JoinSnoc(front: seq<string>, a: string)
    requires |front| > 0
    ensures Join(front + [a]) == Join(front) + "," + a
  {
    if |front| > 1 {
      assert (front + [a])[1..] == front[1..] + [a];
      JoinSnoc(front[1..], a);
    } else {
      assert (front + [a])[1..] == [a];
    }
  }

  /** Function names round-trip, and the two kinds are never confused. */
  lemma FunctionNamesRoundTrip(returnType: string, parameters: seq<string>)
    requires WellFormed(Name("func", [returnType] + parameters))
    ensures ParseSignature(FunctionTypeName(returnType, parameters), "func") == Some(Signature(returnType, parameters))
    ensures ParseSignature(CFunctionTypeName(returnType, parameters), "cfunc") ==
            Some(Signature(returnType, parameters))
    ensures ParseSignature(FunctionTypeName(returnType, parameters), "cfunc") == None
    ensures ParseSignature(CFunctionTypeName(returnType, parameters), "func") == None
  {
    ParsePrint(Name("func", [returnType] + parameters));
    ParsePrint(Name("cfunc", [returnType] + parameters));
    assert ([returnType] + parameters)[1..] == parameters;
  }

  lemma SignaturesPrintBack(s: string)
    ensures var r := ParseSignature(s, "func");
            r.Some? ==> FunctionTypeName(r.value.returnType, r.value.parameters) == s
    ensures var r := ParseSignature(s, "cfunc");
            r.Some? ==> CFunctionTypeName(r.value.returnType, r.value.parameters) == s
  {
    PrintParse(s);
    if Parse(s).Some? && |Parse(s).value.arguments| > 0 {
      var n := Parse(s).value;
      assert [n.arguments[0]] + n.arguments[1..] == n.arguments;
    }
  }

  // ---- Handles ----

  datatype Handle = NoHandle | Raw | Weak | Sub | Unique

  function Prefix(h: Handle): string {
    match h case Raw => "raw " case Weak => "weak " case Sub => "sub " case _ => ""
  }

  function Qualifier(s: string, otherwise: Handle): Handle {
    if Starts(s, "raw ") then Raw else if Starts(s, "weak ") then Weak else if Starts(s, "sub ") then Sub else otherwise
  }

  function Ownership(s: string): Handle { if Ends(s, "*") then Qualifier(s, Unique) else NoHandle }

  function Pointee(s: string): (r: string)
    ensures Ownership(s) != NoHandle ==> |r| < |s| && PointerName(r, Ownership(s)) == s
  {
    var h := Ownership(s);
    if h == NoHandle then s
    else
      PrefixShort(s);
      var r := s[|Prefix(h)|..|s| - 1];
      assert s == Prefix(h) + r + "*";
      r
  }

  lemma PrefixShort(s: string)
    requires Ownership(s) != NoHandle
    ensures Prefix(Ownership(s)) <= s && |Prefix(Ownership(s))| < |s|
  {
    assert s[|s| - 1] == '*';
  }

  function PointerName(pointee: string, h: Handle): string { Prefix(h) + pointee + "*" }

  /** A qualifier in front of something that is not a handle yet: `sub T`. */
  function OpenOwnership(s: string): Handle { if Ends(s, "*") then NoHandle else Qualifier(s, NoHandle) }

  function OpenBase(s: string): (r: string)
    ensures OpenOwnership(s) != NoHandle ==> |r| < |s| && Prefix(OpenOwnership(s)) + r == s
  {
    s[|Prefix(OpenOwnership(s))|..]
  }

  function WithOwnership(s: string, h: Handle): string
    decreases |s|
  {
    if Ends(s, "[]") then WithOwnership(Chop(s, 2), h) + "[]"
    else if Ownership(s) == NoHandle then s
    else PointerName(Pointee(s), h)
  }

  predicate IsReference(s: string) { Ends(s, "&") }

  predicate IsConstReference(s: string) { IsReference(s) && Starts(s, "const ") }

  function ReferenceBase(s: string): string
    requires IsReference(s)
  {
    var base := Chop(s, 1);
    if Starts(base, "const ") then base[6..] else base
  }

  function Reference(s: string, isConst: bool): string { (if isConst then "const " else "") + s + "&" }

  lemma ReferencePrintsBack(s: string)
    requires IsReference(s)
    ensures Reference(ReferenceBase(s), IsConstReference(s)) == s
  {
    var base := Chop(s, 1);
    assert s == base + "&";
    if Starts(s, "const ") {
      assert s[5] == ' ' && s[|s| - 1] == '&';
      assert base == "const " + base[6..];
    }
  }

  // ---- Substitution ----

  type Bindings = map<string, string>

  /** SubstituteGenericType. */
  function Substitute(s: string, bindings: Bindings): string
    decreases |s|, 0
  {
    if IsReference(s) then Reference(Substitute(ReferenceBase(s), bindings), IsConstReference(s))
    else if s in bindings then bindings[s]
    else if Ends(s, "[]") then Substitute(Chop(s, 2), bindings) + "[]"
    else if OpenOwnership(s) != NoHandle then
      var base := OpenBase(s);
      var substituted := Substitute(base, bindings);
      if substituted == base then Prefix(OpenOwnership(s)) + substituted
      else WithOwnership(substituted, OpenOwnership(s))
    else if Ownership(s) != NoHandle then PointerName(Substitute(Pointee(s), bindings), Ownership(s))
    else
      var n := Parse(s);
      if n.None? then s else Print(Name(n.value.base, SubstituteAll(|s|, n.value.arguments, bindings)))
  }

  function SubstituteAll(size: nat, arguments: seq<string>, bindings: Bindings): seq<string>
    requires forall i | 0 <= i < |arguments| :: |arguments[i]| < size
    decreases size, 0, |arguments|
  {
    if |arguments| == 0 then []
    else [Substitute(arguments[0], bindings)] + SubstituteAll(size, arguments[1..], bindings)
  }

  ghost predicate Identity(bindings: Bindings) { forall t | t in bindings :: bindings[t] == t }

  /** Substituting each parameter by itself leaves every type unchanged, `sub T` included. */
  lemma {:induction false} SubstituteIdentity(s: string, bindings: Bindings)
    requires Identity(bindings)
    ensures Substitute(s, bindings) == s
    decreases |s|, 0
  {
    if IsReference(s) {
      SubstituteIdentity(ReferenceBase(s), bindings);
      ReferencePrintsBack(s);
    } else if s in bindings {
    } else if Ends(s, "[]") {
      SubstituteIdentity(Chop(s, 2), bindings);
      assert Chop(s, 2) + "[]" == s;
    } else if OpenOwnership(s) != NoHandle {
      SubstituteIdentity(OpenBase(s), bindings);
    } else if Ownership(s) != NoHandle {
      SubstituteIdentity(Pointee(s), bindings);
    } else if Parse(s).Some? {
      SubstituteAllIdentity(|s|, Parse(s).value.arguments, bindings);
      PrintParse(s);
    }
  }

  lemma {:induction false} SubstituteAllIdentity(size: nat, arguments: seq<string>, bindings: Bindings)
    requires Identity(bindings) && forall i | 0 <= i < |arguments| :: |arguments[i]| < size
    ensures SubstituteAll(size, arguments, bindings) == arguments
    decreases size, 0, |arguments|
  {
    if |arguments| > 0 {
      SubstituteIdentity(arguments[0], bindings);
      SubstituteAllIdentity(size, arguments[1..], bindings);
      assert [arguments[0]] + arguments[1..] == arguments;
    }
  }

  // ---- What substitution does to each form of type ----

  /** No ownership qualifier in front. */
  predicate Unqualified(s: string) { !Starts(s, "raw ") && !Starts(s, "weak ") && !Starts(s, "sub ") }

  /** A parameter becomes its binding, and a name that is not one stays. */
  lemma SubstitutePlain(s: string, bindings: Bindings)
    requires !Ends(s, "&")
    ensures s in bindings ==> Substitute(s, bindings) == bindings[s]
    ensures s !in bindings && Unqualified(s) && !Ends(s, "[]") && !Ends(s, "*") && !Ends(s, ">") ==>
              Substitute(s, bindings) == s
  {
  }

  /** What the end of a printed form rules out. */
  lemma EndsWith(s: string, last: char)
    requires s != "" && s[|s| - 1] == last
    ensures Ends(s, "&") <==> last == '&'
    ensures Ends(s, "*") <==> last == '*'
    ensures Ends(s, "[]") ==> last == ']'
    ensures last != '>' ==> Parse(s) == None
    ensures IsReference(s) <==> last == '&'
  {
    hide Split;
    assert s[|s| - 1..] == [last];
    if Ends(s, "[]") { assert s[|s| - 2..][1] == last; }
  }

  lemma ReferenceOf(p: string, isConst: bool)
    requires !isConst ==> !Starts(p, "const ")
    ensures var s := Reference(p, isConst); IsReference(s) && IsConstReference(s) == isConst && ReferenceBase(s) == p
  {
    var s := Reference(p, isConst);
    EndsWith(s, '&');
    if isConst {
      assert Chop(s, 1) == "const " + p && Chop(s, 1)[6..] == p;
    } else {
      assert s == p + "&" && Chop(s, 1) == p && s[..|p|] == p;
    }
  }

  lemma HandleOf(p: string, h: Handle)
    requires h != NoHandle && (h == Unique ==> Unqualified(p))
    ensures var s := PointerName(p, h);
            && Ownership(s) == h && Pointee(s) == p && OpenOwnership(s) == NoHandle
            && !IsReference(s) && !Ends(s, "[]") && Parse(s).None?
  {
    hide Parse, IsReference, Qualifier, Ends;
    var s := PointerName(p, h);
    assert s == Prefix(h) + (p + "*") && s[|s| - 1] == '*';
    EndsWith(s, '*');
    assert s[|Prefix(h)|..|s| - 1] == p;
    if h == Unique { UniqueOf(p); } else { QualifierOf(h, p + "*", Unique); }
  }

  /** A reference, an array and a handle become the same over what is substituted. */
  lemma SubstituteUnder(p: string, bindings: Bindings)
    ensures Substitute("const " + p + "&", bindings) == "const " + Substitute(p, bindings) + "&"
    ensures !Starts(p, "const ") ==> Substitute(p + "&", bindings) == Substitute(p, bindings) + "&"
    ensures p + "[]" !in bindings ==> Substitute(p + "[]", bindings) == Substitute(p, bindings) + "[]"
  {
    hide Starts, Substitute;
    SubstituteReference(p, true, bindings);
    if !Starts(p, "const ") {
      SubstituteReference(p, false, bindings);
      assert "" + p + "&" == p + "&" && "" + Substitute(p, bindings) + "&" == Substitute(p, bindings) + "&";
    }
    if p + "[]" !in bindings { SubstituteArray(p, bindings); }
  }

  lemma SubstituteReference(p: string, isConst: bool, bindings: Bindings)
    requires !isConst ==> !Starts(p, "const ")
    ensures Substitute(Reference(p, isConst), bindings) == Reference(Substitute(p, bindings), isConst)
  {
    hide Reference, IsReference, IsConstReference, ReferenceBase, Ends, OpenOwnership, Ownership, Parse;
    ReferenceOf(p, isConst);
  }

  lemma SubstituteArray(p: string, bindings: Bindings)
    requires p + "[]" !in bindings
    ensures Substitute(p + "[]", bindings) == Substitute(p, bindings) + "[]"
  {
    hide OpenOwnership, Ownership, Parse, Reference, ReferenceBase, IsConstReference;
    EndsWith(p + "[]", ']');
    assert (p + "[]")[|p|..] == "[]";
    assert Chop(p + "[]", 2) == p;
  }

  /** A handle keeps its qualifier, and what it points to is substituted. */
  lemma SubstituteHandles(p: string, bindings: Bindings)
    ensures "raw " + p + "*" !in bindings ==>
              Substitute("raw " + p + "*", bindings) == "raw " + Substitute(p, bindings) + "*"
    ensures "weak " + p + "*" !in bindings ==>
              Substitute("weak " + p + "*", bindings) == "weak " + Substitute(p, bindings) + "*"
    ensures "sub " + p + "*" !in bindings ==>
              Substitute("sub " + p + "*", bindings) == "sub " + Substitute(p, bindings) + "*"
    ensures Unqualified(p) && p + "*" !in bindings ==> Substitute(p + "*", bindings) == Substitute(p, bindings) + "*"
  {
    hide Substitute, Unqualified;
    if "raw " + p + "*" !in bindings { SubstituteHandle(p, Raw, bindings); }
    if "weak " + p + "*" !in bindings { SubstituteHandle(p, Weak, bindings); }
    if "sub " + p + "*" !in bindings { SubstituteHandle(p, Sub, bindings); }
    assert "" + p + "*" == p + "*" && "" + Substitute(p, bindings) + "*" == Substitute(p, bindings) + "*";
    if Unqualified(p) && p + "*" !in bindings { SubstituteHandle(p, Unique, bindings); }
  }

  lemma SubstituteHandle(p: string, h: Handle, bindings: Bindings)
    requires h != NoHandle && (h == Unique ==> Unqualified(p)) && PointerName(p, h) !in bindings
    ensures Substitute(PointerName(p, h), bindings) == PointerName(Substitute(p, bindings), h)
  {
    hide PointerName, IsReference, Ends, OpenOwnership, Ownership, Parse, Pointee;
    HandleOf(p, h);
  }

  /** A generic name keeps its base, and each argument is substituted. */
  lemma SubstituteName(n: Name, bindings: Bindings)
    requires Parsable(n) && Unqualified(n.base) && Print(n) !in bindings
    ensures exists arguments: seq<string> ::
              && |arguments| == |n.arguments| && Substitute(Print(n), bindings) == Print(Name(n.base, arguments))
              && forall i | 0 <= i < |arguments| :: arguments[i] == Substitute(n.arguments[i], bindings)
  {
    hide Print, IsReference, Ends, OpenOwnership, Ownership, Parse, SubstituteAll, Parsable, Unqualified;
    ParsesBack(n);
    NameOf(n);
    SubstituteAllIs(|Print(n)|, n.arguments, bindings);
    var arguments := SubstituteAll(|Print(n)|, n.arguments, bindings);
    assert Substitute(Print(n), bindings) == Print(Name(n.base, arguments));
  }

  lemma NameOf(n: Name)
    requires Parsable(n) && Unqualified(n.base)
    ensures var s := Print(n);
            !IsReference(s) && !Ends(s, "[]") && OpenOwnership(s) == NoHandle && Ownership(s) == NoHandle
  {
    hide Parse, Separate;
    var s := Print(n);
    EndsWith(s, '>');
    assert s[..|n.base|] == n.base && s[|n.base|] == '<';
  }

  lemma {:induction false} SubstituteAllIs(size: nat, arguments: seq<string>, bindings: Bindings)
    requires forall i | 0 <= i < |arguments| :: |arguments[i]| < size
    ensures var r := SubstituteAll(size, arguments, bindings);
            |r| == |arguments| && forall i | 0 <= i < |r| :: r[i] == Substitute(arguments[i], bindings)
    decreases |arguments|
  {
    hide Substitute;
    if |arguments| > 0 { SubstituteAllIs(size, arguments[1..], bindings); }
  }

  /** An open qualifier `sub T` waits for a handle: it stays while `T` stays; when `T` becomes
      a handle, or an array of them, it replaces that handle's own qualifier; otherwise it is
      dropped. */
  lemma SubstituteOpen(p: string, h: Handle, q: string, own: Handle, bindings: Bindings)
    requires h == Raw || h == Weak || h == Sub
    requires var s := Prefix(h) + p; s !in bindings && !Ends(s, "&") && !Ends(s, "[]") && !Ends(s, "*")
    requires own != NoHandle && (own == Unique ==> Unqualified(q))
    ensures var s, r := Substitute(Prefix(h) + p, bindings), Substitute(p, bindings);
            && (r == p ==> s == Prefix(h) + p)
            && (r != p && !Ends(r, "*") && !Ends(r, "[]") ==> s == r)
            && (r != p && r == PointerName(q, own) ==> s == Prefix(h) + q + "*")
            && (r != p && r == PointerName(q, own) + "[]" ==> s == Prefix(h) + q + "*[]")
  {
    hide Ends, Prefix, PointerName, OpenOwnership, Ownership, OpenBase, Parse, WithOwnership, Unqualified;
    OpenOf(p, h);
    var r := Substitute(p, bindings);
    if !Ends(r, "*") && !Ends(r, "[]") { WithPlain(r, h); }
    WithHandle(q, own, h);
    WithArray(PointerName(q, own), h);
    PointerNameIs(q, h);
  }

  lemma PointerNameIs(q: string, h: Handle)
    ensures PointerName(q, h) == Prefix(h) + q + "*"
    ensures PointerName(q, h) + "[]" == Prefix(h) + q + "*[]"
  {
    assert "*" + "[]" == "*[]";
  }

  lemma OpenOf(p: string, h: Handle)
    requires (h == Raw || h == Weak || h == Sub) && !Ends(Prefix(h) + p, "*")
    ensures OpenOwnership(Prefix(h) + p) == h && OpenBase(Prefix(h) + p) == p
  {
    hide Ends;
    QualifierOf(h, p, NoHandle);
  }

  lemma QualifierOf(h: Handle, p: string, otherwise: Handle)
    requires h == Raw || h == Weak || h == Sub
    ensures Qualifier(Prefix(h) + p, otherwise) == h && (Prefix(h) + p)[|Prefix(h)|..] == p
  {
    var s := Prefix(h) + p;
    assert s[..|Prefix(h)|] == Prefix(h) && s[0] == Prefix(h)[0];
  }

  lemma UniqueOf(p: string)
    requires Unqualified(p)
    ensures Qualifier(p + "*", Unique) == Unique && "" + (p + "*") == p + "*"
  {
    NotQualified(p, "*");
  }

  lemma NotQualified(s: string, last: string)
    requires Unqualified(s) && |last| == 1 && last[0] != ' '
    ensures Unqualified(s + last)
  {
    assert (s + last)[..|s|] == s;
  }

  lemma WithPlain(s: string, h: Handle)
    requires !Ends(s, "*") && !Ends(s, "[]")
    ensures WithOwnership(s, h) == s
  {
  }

  lemma WithHandle(q: string, own: Handle, h: Handle)
    requires own != NoHandle && (own == Unique ==> Unqualified(q))
    ensures WithOwnership(PointerName(q, own), h) == PointerName(q, h)
  {
    hide PointerName, Ends, Ownership, Pointee, Unqualified;
    HandleOf(q, own);
  }

  lemma WithArray(s: string, h: Handle)
    ensures WithOwnership(s + "[]", h) == WithOwnership(s, h) + "[]"
  {
    hide Ownership, Pointee, PointerName;
    assert Chop(s + "[]", 2) == s && (s + "[]")[|s|..] == "[]";
  }

  // ---- Unification ----

  /** MentionsGenericParameter. */
  predicate Mentions(pattern: string, parameters: set<string>)
    decreases |pattern|, 0
  {
    || pattern in parameters
    || (if Ends(pattern, "[]") then Mentions(Chop(pattern, 2), parameters)
        else if Ownership(pattern) != NoHandle then Mentions(Pointee(pattern), parameters)
        else Parse(pattern).Some? && MentionsAny(|pattern|, Parse(pattern).value.arguments, parameters))
  }

  predicate MentionsAny(size: nat, arguments: seq<string>, parameters: set<string>)
    requires forall i | 0 <= i < |arguments| :: |arguments[i]| < size
    decreases size, 0, |arguments|
  {
    |arguments| > 0 && (Mentions(arguments[0], parameters) || MentionsAny(size, arguments[1..], parameters))
  }

  datatype Unified = Unified(ok: bool, bindings: Bindings)

  /** UnifyGenericType: whether it succeeds, and the bindings it leaves behind. */
  function Unify(pattern: string, actual: string, parameters: set<string>, bindings: Bindings): Unified
    decreases |pattern|, 0
  {
    if !Mentions(pattern, parameters) then Unified(true, bindings)
    else if pattern in parameters then
      if OpenOwnership(actual) != NoHandle && OpenBase(actual) == pattern then Unified(true, bindings)
      else if pattern !in bindings then Unified(true, bindings[pattern := actual])
      else Unified(bindings[pattern] == actual, bindings)
    else if Ends(pattern, "[]") && Ends(actual, "[]") then
      Unify(Chop(pattern, 2), Chop(actual, 2), parameters, bindings)
    else if Ownership(pattern) != NoHandle && Ownership(pattern) == Ownership(actual) then
      Unify(Pointee(pattern), Pointee(actual), parameters, bindings)
    else
      var p, a := Parse(pattern), Parse(actual);
      if p.Some? && a.Some? then
        if p.value.base != a.value.base || |p.value.arguments| != |a.value.arguments| then Unified(false, bindings)
        else UnifyAll(|pattern|, p.value.arguments, a.value.arguments, parameters, bindings)
      else Unified(pattern == actual, bindings)
  }

  function UnifyAll(size: nat, patterns: seq<string>, actuals: seq<string>, parameters: set<string>,
                    bindings: Bindings): Unified
    requires |patterns| == |actuals| && forall i | 0 <= i < |patterns| :: |patterns[i]| < size
    decreases size, 0, |patterns|
  {
    if |patterns| == 0 then Unified(true, bindings)
    else
      var first := Unify(patterns[0], actuals[0], parameters, bindings);
      if !first.ok then first else UnifyAll(size, patterns[1..], actuals[1..], parameters, first.bindings)
  }

  predicate Extends(smaller: Bindings, larger: Bindings) {
    forall t | t in smaller :: t in larger && larger[t] == smaller[t]
  }

  /** Every parameter position of the pattern has the type found there, except `sub T` met
      at `T`; parts without a parameter are free. */
  ghost predicate Agrees(pattern: string, actual: string, parameters: set<string>, bindings: Bindings)
    decreases |pattern|
  {
    if !Mentions(pattern, parameters) then true
    else if pattern in parameters then
      || (OpenOwnership(actual) != NoHandle && OpenBase(actual) == pattern)
      || (pattern in bindings && bindings[pattern] == actual)
    else if Ends(pattern, "[]") && Ends(actual, "[]") then
      Agrees(Chop(pattern, 2), Chop(actual, 2), parameters, bindings)
    else if Ownership(pattern) != NoHandle && Ownership(pattern) == Ownership(actual) then
      Agrees(Pointee(pattern), Pointee(actual), parameters, bindings)
    else
      var p, a := Parse(pattern), Parse(actual);
      if p.Some? && a.Some? then
        && p.value.base == a.value.base && |p.value.arguments| == |a.value.arguments|
        && forall i | 0 <= i < |p.value.arguments| ::
             Agrees(p.value.arguments[i], a.value.arguments[i], parameters, bindings)
      else pattern == actual
  }

  /** More bindings agree with no less. */
  lemma {:induction false} AgreesMore(pattern: string, actual: string, parameters: set<string>, smaller: Bindings,
                                      larger: Bindings)
    requires Extends(smaller, larger) && Agrees(pattern, actual, parameters, smaller)
    ensures Agrees(pattern, actual, parameters, larger)
    decreases |pattern|
  {
    hide Mentions, Parse, OpenOwnership, Ownership, Pointee, OpenBase;
    if !Mentions(pattern, parameters) || pattern in parameters {
    } else if Ends(pattern, "[]") && Ends(actual, "[]") {
      AgreesMore(Chop(pattern, 2), Chop(actual, 2), parameters, smaller, larger);
    } else if Ownership(pattern) != NoHandle && Ownership(pattern) == Ownership(actual) {
      AgreesMore(Pointee(pattern), Pointee(actual), parameters, smaller, larger);
    } else {
      var p, a := Parse(pattern), Parse(actual);
      if p.Some? && a.Some? {
        var patterns, actuals := p.value.arguments, a.value.arguments;
        forall i | 0 <= i < |patterns| ensures Agrees(patterns[i], actuals[i], parameters, larger) {
          AgreesMore(patterns[i], actuals[i], parameters, smaller, larger);
        }
      }
    }
  }

  /** No earlier binding changes, and on success every parameter position agrees with the
      type found there. */
  lemma {:induction false} UnifyAgrees(pattern: string, actual: string, parameters: set<string>, bindings: Bindings)
    ensures var r := Unify(pattern, actual, parameters, bindings);
            Extends(bindings, r.bindings) && (r.ok ==> Agrees(pattern, actual, parameters, r.bindings))
    decreases |pattern|, 0
  {
    hide Mentions, Parse, OpenOwnership, Ownership, Pointee, OpenBase;
    if !Mentions(pattern, parameters) || pattern in parameters {
    } else if Ends(pattern, "[]") && Ends(actual, "[]") {
      UnifyAgrees(Chop(pattern, 2), Chop(actual, 2), parameters, bindings);
    } else if Ownership(pattern) != NoHandle && Ownership(pattern) == Ownership(actual) {
      UnifyAgrees(Pointee(pattern), Pointee(actual), parameters, bindings);
    } else {
      var p, a := Parse(pattern), Parse(actual);
      if p.Some? && a.Some? && p.value.base == a.value.base && |p.value.arguments| == |a.value.arguments| {
        UnifyAllAgrees(|pattern|, p.value.arguments, a.value.arguments, parameters, bindings);
      }
    }
  }

  lemma {:induction false} UnifyAllAgrees(size: nat, patterns: seq<string>, actuals: seq<string>,
                                          parameters: set<string>, bindings: Bindings)
    requires |patterns| == |actuals| && forall i | 0 <= i < |patterns| :: |patterns[i]| < size
    ensures var r := UnifyAll(size, patterns, actuals, parameters, bindings);
            && Extends(bindings, r.bindings)
            && (r.ok ==> forall i | 0 <= i < |patterns| :: Agrees(patterns[i], actuals[i], parameters, r.bindings))
    decreases size, 0, |patterns|
  {
    hide Unify, Agrees;
    if |patterns| > 0 {
      UnifyAgrees(patterns[0], actuals[0], parameters, bindings);
      var first := Unify(patterns[0], actuals[0], parameters, bindings);
      if first.ok {
        var last := UnifyAll(size, patterns[1..], actuals[1..], parameters, first.bindings);
        UnifyAllAgrees(size, patterns[1..], actuals[1..], parameters, first.bindings);
        if last.ok {
          AgreesMore(patterns[0], actuals[0], parameters, first.bindings, last.bindings);
          forall i | 0 < i < |patterns| ensures Agrees(patterns[i], actuals[i], parameters, last.bindings) {
            assert patterns[i] == patterns[1..][i - 1] && actuals[i] == actuals[1..][i - 1];
          }
        }
      }
    }
  }

  /** If any extension of the bindings agrees, unification succeeds and binds no more than
      that extension does. */
  lemma {:induction false} UnifyIsLeast(pattern: string, actual: string, parameters: set<string>, bindings: Bindings,
                                        larger: Bindings)
    requires Extends(bindings, larger) && Agrees(pattern, actual, parameters, larger)
    ensures var r := Unify(pattern, actual, parameters, bindings); r.ok && Extends(r.bindings, larger)
    decreases |pattern|, 0
  {
    hide Mentions, Parse, OpenOwnership, Ownership, Pointee, OpenBase;
    if !Mentions(pattern, parameters) || pattern in parameters {
    } else if Ends(pattern, "[]") && Ends(actual, "[]") {
      UnifyIsLeast(Chop(pattern, 2), Chop(actual, 2), parameters, bindings, larger);
    } else if Ownership(pattern) != NoHandle && Ownership(pattern) == Ownership(actual) {
      UnifyIsLeast(Pointee(pattern), Pointee(actual), parameters, bindings, larger);
    } else {
      var p, a := Parse(pattern), Parse(actual);
      if p.Some? && a.Some? {
        UnifyAllIsLeast(|pattern|, p.value.arguments, a.value.arguments, parameters, bindings, larger);
      }
    }
  }

  lemma {:induction false} UnifyAllIsLeast(size: nat, patterns: seq<string>, actuals: seq<string>,
                                           parameters: set<string>,
                                           bindings: Bindings, larger: Bindings)
    requires |patterns| == |actuals| && forall i | 0 <= i < |patterns| :: |patterns[i]| < size
    requires Extends(bindings, larger) && forall i | 0 <= i < |patterns| ::
             Agrees(patterns[i], actuals[i], parameters, larger)
    ensures var r := UnifyAll(size, patterns, actuals, parameters, bindings); r.ok && Extends(r.bindings, larger)
    decreases size, 0, |patterns|
  {
    hide Unify, Agrees;
    if |patterns| > 0 {
      UnifyIsLeast(patterns[0], actuals[0], parameters, bindings, larger);
      UnifyAllIsLeast(size, patterns[1..], actuals[1..], parameters,
                      Unify(patterns[0], actuals[0], parameters, bindings).bindings, larger);
    }
  }

  /** Unification succeeds exactly when some extension of the bindings agrees with the
      pattern, and then it finds the smallest one. */
  lemma UnifyDecidesAgreement(pattern: string, actual: string, parameters: set<string>, bindings: Bindings)
    ensures var r := Unify(pattern, actual, parameters, bindings);
            && Extends(bindings, r.bindings)
            && (r.ok <==> exists larger :: Extends(bindings, larger) && Agrees(pattern, actual, parameters, larger))
            && (r.ok ==> Agrees(pattern, actual, parameters, r.bindings))
            && (forall larger | Extends(bindings, larger) && Agrees(pattern, actual, parameters, larger) ::
                Extends(r.bindings, larger))
  {
    hide Unify, Agrees;
    UnifyAgrees(pattern, actual, parameters, bindings);
    var r := Unify(pattern, actual, parameters, bindings);
    forall larger | Extends(bindings, larger) && Agrees(pattern, actual, parameters, larger)
      ensures r.ok && Extends(r.bindings, larger)
    {
      UnifyIsLeast(pattern, actual, parameters, bindings, larger);
    }
  }

  // ---- Substitution undoes unification ----

  /** The pattern has no reference and no open qualifier in it. */
  predicate Closed(pattern: string)
    decreases |pattern|
  {
    && !IsReference(pattern)
    && if Ends(pattern, "[]") then Closed(Chop(pattern, 2))
       else
         && OpenOwnership(pattern) == NoHandle
         && if Ownership(pattern) != NoHandle then Closed(Pointee(pattern))
            else var n := Parse(pattern);
                 n.Some? ==> forall i | 0 <= i < |n.value.arguments| :: Closed(n.value.arguments[i])
  }

  /** Where the pattern and the type are compared, a part without a parameter is the part
      found there, and no parameter stands for itself behind an open qualifier. */
  predicate Rigid(pattern: string, actual: string, parameters: set<string>)
    decreases |pattern|
  {
    if !Mentions(pattern, parameters) then pattern == actual
    else if pattern in parameters then OpenOwnership(actual) == NoHandle || OpenBase(actual) != pattern
    else if Ends(pattern, "[]") then Ends(actual, "[]") ==> Rigid(Chop(pattern, 2), Chop(actual, 2), parameters)
    else if Ownership(pattern) != NoHandle then
      Ownership(actual) == Ownership(pattern) ==> Rigid(Pointee(pattern), Pointee(actual), parameters)
    else
      var p, a := Parse(pattern), Parse(actual);
      p.Some? && a.Some? && |p.value.arguments| == |a.value.arguments| ==>
        forall i | 0 <= i < |p.value.arguments| :: Rigid(p.value.arguments[i], a.value.arguments[i], parameters)
  }

  /** A part without a parameter is left alone. */
  lemma {:induction false} SubstituteFree(s: string, parameters: set<string>, bindings: Bindings)
    requires Closed(s) && !Mentions(s, parameters) && bindings.Keys <= parameters
    ensures Substitute(s, bindings) == s
    decreases |s|
  {
    hide Parse, OpenOwnership, Ownership, Pointee, OpenBase, IsReference;
    assert s !in bindings;
    if Ends(s, "[]") {
      SubstituteFree(Chop(s, 2), parameters, bindings);
      Rejoins(s);
    } else if Ownership(s) != NoHandle {
      SubstituteFree(Pointee(s), parameters, bindings);
    } else if Parse(s).Some? {
      var arguments := Parse(s).value.arguments;
      SubstituteAllIs(|s|, arguments, bindings);
      forall i | 0 <= i < |arguments| ensures Substitute(arguments[i], bindings) == arguments[i] {
        MentionsAnyIs(|s|, arguments, parameters);
        SubstituteFree(arguments[i], parameters, bindings);
      }
      assert SubstituteAll(|s|, arguments, bindings) == arguments;
      PrintParse(s);
    }
  }

  lemma Rejoins(s: string)
    requires Ends(s, "[]")
    ensures Chop(s, 2) + "[]" == s
  {
  }

  lemma {:induction false} MentionsAnyIs(size: nat, arguments: seq<string>, parameters: set<string>)
    requires forall i | 0 <= i < |arguments| :: |arguments[i]| < size
    ensures MentionsAny(size, arguments, parameters) <==>
            exists i :: 0 <= i < |arguments| && Mentions(arguments[i], parameters)
    decreases |arguments|
  {
    hide Mentions;
    if |arguments| > 0 {
      MentionsAnyIs(size, arguments[1..], parameters);
      if i :| 0 <= i < |arguments[1..]| && Mentions(arguments[1..][i], parameters) {
        assert Mentions(arguments[i + 1], parameters);
      }
      if i :| 0 <= i < |arguments| && Mentions(arguments[i], parameters) {
        assert i > 0 ==> arguments[1..][i - 1] == arguments[i];
      }
    }
  }

  /** What agrees with the pattern is the pattern with the bindings put in. */
  lemma {:induction false} AgreementSubstitutes(pattern: string, actual: string, parameters: set<string>,
                                                bindings: Bindings)
    requires Closed(pattern) && Rigid(pattern, actual, parameters) && Agrees(pattern, actual, parameters, bindings)
    requires bindings.Keys <= parameters
    ensures Substitute(pattern, bindings) == actual
    decreases |pattern|
  {
    hide Parse, OpenOwnership, Ownership, Pointee, OpenBase, IsReference, Mentions;
    if !Mentions(pattern, parameters) {
      SubstituteFree(pattern, parameters, bindings);
    } else if pattern in parameters {
    } else {
      assert pattern !in bindings;
      FormsDiffer(pattern);
      if Ends(pattern, "[]") {
        if Ends(actual, "[]") {
          AgreementSubstitutes(Chop(pattern, 2), Chop(actual, 2), parameters, bindings);
          Rejoins(actual);
        }
      } else if Ownership(pattern) != NoHandle {
        if Ownership(actual) == Ownership(pattern) {
          AgreementSubstitutes(Pointee(pattern), Pointee(actual), parameters, bindings);
        }
      } else {
        NameSubstitutes(pattern, actual, parameters, bindings);
      }
    }
  }

  lemma {:induction false} NameSubstitutes(pattern: string, actual: string, parameters: set<string>,
                                           bindings: Bindings)
    requires Closed(pattern) && Rigid(pattern, actual, parameters) && Agrees(pattern, actual, parameters, bindings)
    requires bindings.Keys <= parameters && Mentions(pattern, parameters) && pattern !in parameters
    requires !Ends(pattern, "[]") && Ownership(pattern) == NoHandle
    ensures Substitute(pattern, bindings) == actual
    decreases |pattern|, 0
  {
    hide OpenOwnership, Ownership, Pointee, OpenBase, Ends, IsReference, Parse;
    var p, a := Parse(pattern), Parse(actual);
    if p.Some? {
      var patterns, actuals := p.value.arguments, a.value.arguments;
      SubstituteAllIs(|pattern|, patterns, bindings);
      forall i | 0 <= i < |patterns| ensures Substitute(patterns[i], bindings) == actuals[i] {
        AgreementSubstitutes(patterns[i], actuals[i], parameters, bindings);
      }
      assert SubstituteAll(|pattern|, patterns, bindings) == actuals;
      PrintParse(actual);
    }
  }

  /** An array or a handle is not a generic name. */
  lemma FormsDiffer(s: string)
    ensures Ends(s, "[]") ==> Ownership(s) == NoHandle && Parse(s).None?
    ensures Ownership(s) != NoHandle ==> Parse(s).None?
  {
    if Ends(s, "[]") {
      assert s[|s| - 2..][1] == ']';
      EndsWith(s, ']');
    } else if Ends(s, "*") {
      assert s[|s| - 1..][0] == '*';
      EndsWith(s, '*');
    }
  }

  lemma {:induction false} UnifyBinds(pattern: string, actual: string, parameters: set<string>, bindings: Bindings)
    ensures Unify(pattern, actual, parameters, bindings).bindings.Keys <= bindings.Keys + parameters
    decreases |pattern|, 0
  {
    hide Mentions, Parse, OpenOwnership, Ownership, Pointee, OpenBase;
    if !Mentions(pattern, parameters) || pattern in parameters {
    } else if Ends(pattern, "[]") && Ends(actual, "[]") {
      UnifyBinds(Chop(pattern, 2), Chop(actual, 2), parameters, bindings);
    } else if Ownership(pattern) != NoHandle && Ownership(pattern) == Ownership(actual) {
      UnifyBinds(Pointee(pattern), Pointee(actual), parameters, bindings);
    } else {
      var p, a := Parse(pattern), Parse(actual);
      if p.Some? && a.Some? && p.value.base == a.value.base && |p.value.arguments| == |a.value.arguments| {
        UnifyAllBinds(|pattern|, p.value.arguments, a.value.arguments, parameters, bindings);
      }
    }
  }

  lemma {:induction false} UnifyAllBinds(size: nat, patterns: seq<string>, actuals: seq<string>,
                                         parameters: set<string>, bindings: Bindings)
    requires |patterns| == |actuals| && forall i | 0 <= i < |patterns| :: |patterns[i]| < size
    ensures UnifyAll(size, patterns, actuals, parameters, bindings).bindings.Keys <= bindings.Keys + parameters
    decreases size, 0, |patterns|
  {
    hide Unify;
    if |patterns| > 0 {
      UnifyBinds(patterns[0], actuals[0], parameters, bindings);
      var first := Unify(patterns[0], actuals[0], parameters, bindings);
      if first.ok { UnifyAllBinds(size, patterns[1..], actuals[1..], parameters, first.bindings); }
    }
  }

  /** The bindings unification finds turn the pattern into the type it was unified with. */
  lemma SubstituteUnified(pattern: string, actual: string, parameters: set<string>, bindings: Bindings)
    requires Closed(pattern) && Rigid(pattern, actual, parameters) && bindings.Keys <= parameters
    ensures var r := Unify(pattern, actual, parameters, bindings); r.ok ==> Substitute(pattern, r.bindings) == actual
  {
    hide Unify, Agrees, Rigid, Closed, Substitute;
    UnifyAgrees(pattern, actual, parameters, bindings);
    UnifyBinds(pattern, actual, parameters, bindings);
    var r := Unify(pattern, actual, parameters, bindings);
    if r.ok { AgreementSubstitutes(pattern, actual, parameters, r.bindings); }
  }

  // ---- When a pattern mentions a parameter ----

  /** `t` is what the array `s` is of, what the handle `s` points to, or an argument of `s`. */
  ghost predicate PartOf(s: string, t: string) {
    || s == t + "[]"
    || s == "raw " + t + "*" || s == "weak " + t + "*" || s == "sub " + t + "*" || (s == t + "*" && Unqualified(s))
    || (Parse(s).Some? && t in Parse(s).value.arguments)
  }

  /** From `s` part by part to a parameter. */
  ghost predicate Leads(s: string, chain: seq<string>, parameters: set<string>) {
    && |chain| > 0 && chain[0] == s && chain[|chain| - 1] in parameters
    && forall i | 0 < i < |chain| :: PartOf(chain[i - 1], chain[i])
  }

  lemma PartMentions(s: string, t: string, parameters: set<string>)
    requires PartOf(s, t) && Mentions(t, parameters)
    ensures Mentions(s, parameters)
  {
    hide Parse, Ends, Ownership, Pointee, Unqualified, OpenOwnership;
    FormsDiffer(s);
    if Parse(s).Some? && t in Parse(s).value.arguments {
      MentionsAnyIs(|s|, Parse(s).value.arguments, parameters);
    } else if s == t + "[]" {
      ArrayOf(t);
    } else {
      HandleForms(s, t);
    }
  }

  lemma ArrayOf(t: string)
    ensures Ends(t + "[]", "[]") && Chop(t + "[]", 2) == t
  {
    assert (t + "[]")[|t|..] == "[]";
  }

  lemma HandleForms(s: string, t: string)
    requires || s == "raw " + t + "*" || s == "weak " + t + "*" || s == "sub " + t + "*"
             || (s == t + "*" && Unqualified(s))
    ensures Ownership(s) != NoHandle && Pointee(s) == t && !Ends(s, "[]")
  {
    hide Ownership, Pointee, Ends, Parse;
    if s == t + "*" && Unqualified(s) {
      assert s[..|t|] == t && s == "" + t + "*";
      HandleOf(t, Unique);
    } else if s == "raw " + t + "*" {
      HandleOf(t, Raw);
    } else if s == "weak " + t + "*" {
      HandleOf(t, Weak);
    } else {
      HandleOf(t, Sub);
    }
  }

  lemma MentionsPart(s: string, parameters: set<string>)
    requires Mentions(s, parameters) && s !in parameters
    ensures exists t :: PartOf(s, t) && Mentions(t, parameters)
  {
    hide Parse, Pointee;
    if Ends(s, "[]") {
      Rejoins(s);
      assert PartOf(s, Chop(s, 2));
    } else if Ownership(s) != NoHandle {
      assert s == Prefix(Ownership(s)) + Pointee(s) + "*";
      assert PartOf(s, Pointee(s));
    } else {
      var arguments := Parse(s).value.arguments;
      MentionsAnyIs(|s|, arguments, parameters);
      var i :| 0 <= i < |arguments| && Mentions(arguments[i], parameters);
      assert PartOf(s, arguments[i]);
    }
  }

  /** A pattern mentions a parameter exactly when its parts lead to one. */
  lemma MentionsExactly(s: string, parameters: set<string>)
    ensures Mentions(s, parameters) <==> exists chain :: Leads(s, chain, parameters)
  {
    if Mentions(s, parameters) { var chain := ChainOf(s, parameters); }
    if chain :| Leads(s, chain, parameters) { ChainMentions(s, chain, parameters); }
  }

  lemma {:induction false} ChainOf(s: string, parameters: set<string>) returns (chain: seq<string>)
    requires Mentions(s, parameters)
    ensures Leads(s, chain, parameters)
    decreases |s|
  {
    hide Mentions, PartOf;
    if s in parameters {
      chain := [s];
    } else {
      MentionsPart(s, parameters);
      var t :| PartOf(s, t) && Mentions(t, parameters);
      PartShorter(s, t);
      var rest := ChainOf(t, parameters);
      chain := [s] + rest;
      forall i | 1 < i < |chain| ensures PartOf(chain[i - 1], chain[i]) {
        assert PartOf(rest[i - 2], rest[i - 1]);
      }
    }
  }

  lemma PartShorter(s: string, t: string)
    requires PartOf(s, t)
    ensures |t| < |s|
  {
    hide Parse, Unqualified;
  }

  lemma {:induction false} ChainMentions(s: string, chain: seq<string>, parameters: set<string>)
    requires Leads(s, chain, parameters)
    ensures Mentions(s, parameters)
    decreases |chain|
  {
    hide PartOf, Mentions;
    if |chain| == 1 {
      InParameters(s, parameters);
    } else {
      assert chain[1..][|chain| - 2] == chain[|chain| - 1];
      ChainMentions(chain[1], chain[1..], parameters);
      PartMentions(s, chain[1], parameters);
    }
  }

  lemma InParameters(s: string, parameters: set<string>)
    requires s in parameters
    ensures Mentions(s, parameters)
  {
  }

  /** The same as a loop over the arguments that updates one map. */
  method UnifyGenericType(pattern: string, actual: string, parameters: set<string>, given: Bindings)
    returns (ok: bool, bindings: Bindings)
    ensures Unified(ok, bindings) == Unify(pattern, actual, parameters, given)
    decreases |pattern|
  {
    hide Mentions, Parse, Ownership, OpenOwnership, Pointee, OpenBase;
    bindings := given;
    if !Mentions(pattern, parameters) { return true, bindings; }
    if pattern in parameters {
      if OpenOwnership(actual) != NoHandle && OpenBase(actual) == pattern { return true, bindings; }
      if pattern !in bindings { return true, bindings[pattern := actual]; }
      return bindings[pattern] == actual, bindings;
    }
    if Ends(pattern, "[]") && Ends(actual, "[]") {
      ok, bindings := UnifyGenericType(Chop(pattern, 2), Chop(actual, 2), parameters, bindings);
      return;
    }
    if Ownership(pattern) != NoHandle && Ownership(pattern) == Ownership(actual) {
      ok, bindings := UnifyGenericType(Pointee(pattern), Pointee(actual), parameters, bindings);
      return;
    }
    var p, a := Parse(pattern), Parse(actual);
    if p.None? || a.None? { return pattern == actual, bindings; }
    var patterns, actuals := p.value.arguments, a.value.arguments;
    if p.value.base != a.value.base || |patterns| != |actuals| { return false, bindings; }
    var i := 0;
    while i < |patterns|
      invariant 0 <= i <= |patterns|
      invariant UnifyAll(|pattern|, patterns[i..], actuals[i..], parameters, bindings)
             == UnifyAll(|pattern|, patterns, actuals, parameters, given)
    {
      assert patterns[i..][1..] == patterns[i + 1..] && actuals[i..][1..] == actuals[i + 1..];
      ok, bindings := UnifyGenericType(patterns[i], actuals[i], parameters, bindings);
      if !ok { return; }
      i := i + 1;
    }
    ok := true;
  }
}

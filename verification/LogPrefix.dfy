/** The prefix of a log line: the qualified function name cut out of a pretty signature and stripped of template arguments. */
module LogPrefix {
  import opened Wrappers

  // ----- Text with angle brackets -----

  /** Brackets opened and not closed. */
  function Nest(s: string): int
    decreases |s|
  {
    if s == "" then 0
    else Nest(s[..|s| - 1]) + (if s[|s| - 1] == '<' then 1 else if s[|s| - 1] == '>' then -1 else 0)
  }

  predicate Balanced(s: string) {
    Nest(s) == 0 && forall k | 0 <= k <= |s| :: Nest(s[..k]) >= 0
  }

  predicate NoBrackets(s: string) {
    '<' !in s && '>' !in s
  }

  /** Identifiers, destructors and operators alike begin with neither a blank nor a bracket. */
  predicate IsName(s: string) {
    s != "" && s[0] != ' ' && s[0] != '<' && s[0] != '>'
  }

  lemma {:induction false} NestAdds(s: string, t: string)
    ensures Nest(s + t) == Nest(s) + Nest(t)
    decreases |t|
  {
    if t == "" {
      assert s + t == s;
    } else {
      var front := t[..|t| - 1];
      NestAdds(s, front);
      assert (s + t)[..|s + t| - 1] == s + front;
    }
  }

  lemma NestFirst(s: string)
    requires s != ""
    ensures Nest(s) == Nest(s[1..]) + (if s[0] == '<' then 1 else if s[0] == '>' then -1 else 0)
  {
    assert s == [s[0]] + s[1..] && [s[0]][..0] == "";
    NestAdds([s[0]], s[1..]);
  }

  lemma NestOfNothing()
    ensures Nest("") == 0
  {
  }

  lemma {:induction false} NestOfPlain(s: string)
    requires NoBrackets(s)
    ensures Nest(s) == 0
    decreases |s|
  {
    if s == "" {
    } else {
      NestOfPlain(s[..|s| - 1]);
    }
  }

  /** A balanced text cut where the rest opens as many brackets as it closes leaves a balanced rest. */
  lemma RestIsBalanced(before: string, middle: string)
    requires Balanced(before + middle) && Nest(middle) >= 0
    ensures Balanced(middle)
  {
    hide Nest;
    NestAdds(before, middle);
    assert (before + middle)[..|before|] == before;
    forall j | 0 <= j <= |middle| ensures Nest(middle[..j]) >= 0 {
      assert (before + middle)[..|before| + j] == before + middle[..j];
      NestAdds(before, middle[..j]);
    }
  }

  /** After a balanced text, everything depends on what follows. */
  lemma BalancedThen(s: string, t: string)
    requires Balanced(s)
    ensures Balanced(s + t) <==> Balanced(t)
  {
    hide Nest;
    NestAdds(s, t);
    if Balanced(s + t) {
      assert (s + t)[..|s + t|] == s + t;
      RestIsBalanced(s, t);
    }
    if Balanced(t) {
      forall k | 0 <= k <= |s + t| ensures Nest((s + t)[..k]) >= 0 {
        if k <= |s| {
          assert (s + t)[..k] == s[..k];
        } else {
          assert (s + t)[..k] == s + t[..k - |s|];
          NestAdds(s, t[..k - |s|]);
        }
      }
    }
  }

  // ----- Finding the function name -----

  predicate OccursAt(text: string, word: string, k: nat) {
    k + |word| <= |text| && text[k..k + |word|] == word
  }

  /** `string_view::find`. */
  method Find(text: string, word: string, from: nat) returns (at: Option<nat>)
    ensures at.Some? ==> from <= at.value && OccursAt(text, word, at.value) && forall k: nat | from <= k < at.value :: !OccursAt(text, word, k)
    ensures at.None? ==> forall k: nat | from <= k :: !OccursAt(text, word, k)
  {
    var k := from;
    while k + |word| <= |text|
      invariant from <= k && forall j: nat | from <= j < k :: !OccursAt(text, word, j)
      decreases |text| - k
    {
      if text[k..k + |word|] == word {
        return Some(k);
      }
      k := k + 1;
    }
    return None;
  }

  /** The character at `i`, or the terminator that follows the text in memory. */
  function CharAt(s: string, i: nat): char {
    if i < |s| then s[i] else 0 as char
  }

  /** The name occurs here and an argument list follows. */
  predicate CalledAt(pretty: string, name: string, k: nat) {
    OccursAt(pretty, name, k) && CharAt(pretty, k + |name|) == '('
  }

  predicate FirstCall(pretty: string, name: string, k: nat) {
    CalledAt(pretty, name, k) && forall j: nat | j < k :: !CalledAt(pretty, name, j)
  }

  /** A blank at which the scan to the left from `at` stops: as many brackets open as close between the two, or more. */
  predicate StopsAt(pretty: string, at: nat, i: nat)
    requires i <= at < |pretty|
  {
    pretty[i] == ' ' && Nest(pretty[i + 1..at + 1]) >= 0
  }

  /** The qualified name begins after the nearest such blank, or where the text begins. */
  predicate BeginsAt(pretty: string, at: nat, start: nat)
    requires at < |pretty|
  {
    && start <= at + 1
    && (start > 0 ==> StopsAt(pretty, at, start - 1))
    && forall i | start <= i <= at :: !StopsAt(pretty, at, i)
  }

  /** The view runs from where the qualified name begins to the end of the name at `k`. */
  predicate Spans(pretty: string, name: string, k: nat, start: nat, view: string) {
    && k + |name| <= |pretty| && k < |pretty| && BeginsAt(pretty, k, start)
    && start <= k + |name| && view == pretty[start..k + |name|]
  }

  /** What `find_fullname` is to return: the name alone if the signature never calls it. */
  ghost predicate IsFullName(pretty: string, name: string, view: string) {
    if exists k: nat :: CalledAt(pretty, name, k) then
      exists k: nat, start: nat :: FirstCall(pretty, name, k) && Spans(pretty, name, k, start, view)
    else view == name
  }

  /** `next` is what follows the view in memory: the parenthesis, or the terminator of the name. */
  method FindFullName(pretty: string, name: string) returns (view: string, next: char)
    requires name != ""
    ensures IsFullName(pretty, name, view)
  {
    var position := 0;
    var found := Find(pretty, name, position);
    while found.Some? && CharAt(pretty, found.value + |name|) != '('
      invariant position <= |pretty|
      invariant found.Some? ==> position <= found.value && OccursAt(pretty, name, found.value)
      invariant forall k: nat | k < position || (found.Some? && k < found.value) || found.None? :: !CalledAt(pretty, name, k)
      decreases found.Some?, |pretty| - position
    {
      position := found.value + 1;
      found := Find(pretty, name, position);
    }
    if found.None? {
      return name, 0 as char;
    }
    var at := found.value;
    assert FirstCall(pretty, name, at);
    var start := ScanLeft(pretty, at);
    assert Spans(pretty, name, at, start, pretty[start..at + |name|]);
    return pretty[start..at + |name|], '(';
  }

  /** The scan to the left, skipping what stands between brackets. */
  method ScanLeft(pretty: string, at: nat) returns (start: nat)
    requires at < |pretty|
    ensures BeginsAt(pretty, at, start)
  {
    var nest := 0;
    var i: int := at;
    while i >= 0
      invariant -1 <= i <= at && nest == -Nest(pretty[i + 1..at + 1])
      invariant forall j | i < j <= at :: !StopsAt(pretty, at, j)
    {
      assert pretty[i..at + 1] == [pretty[i]] + pretty[i + 1..at + 1];
      NestAdds([pretty[i]], pretty[i + 1..at + 1]);
      assert [pretty[i]][..0] == "";
      if pretty[i] == '>' {
        nest := nest + 1;
      } else if pretty[i] == '<' {
        nest := nest - 1;
      } else if pretty[i] == ' ' && nest <= 0 {
        return i + 1;
      }
      i := i - 1;
    }
    return 0;
  }

  lemma BeginIsUnique(pretty: string, at: nat, first: nat, second: nat)
    requires at < |pretty| && BeginsAt(pretty, at, first) && BeginsAt(pretty, at, second)
    ensures first == second
  {
    hide StopsAt;
  }

  /** There is one full name. */
  lemma FullNameIsUnique(pretty: string, name: string, first: string, second: string)
    requires IsFullName(pretty, name, first) && IsFullName(pretty, name, second)
    ensures first == second
  {
    hide BeginsAt, CalledAt;
    if exists k: nat :: CalledAt(pretty, name, k) {
      var j: nat, a: nat :| FirstCall(pretty, name, j) && Spans(pretty, name, j, a, first);
      var k: nat, b: nat :| FirstCall(pretty, name, k) && Spans(pretty, name, k, b, second);
      assert j == k;
      BeginIsUnique(pretty, j, a, b);
    }
  }

  /** Every blank of the scope stands inside brackets, and it opens as many brackets as it closes, or more. */
  predicate IsScope(scope: string) {
    Nest(scope) >= 0 && forall i | 0 <= i < |scope| && scope[i] == ' ' :: Nest(scope[i + 1..]) < 0
  }

  /**
   What the function is for: of a signature with a result type, a qualified name and arguments, it finds the qualified
   name, blanks among the template arguments included.
   */
  lemma QualifiedNameIsFound(before: string, scope: string, name: string, rest: string)
    requires IsName(name) && IsScope(scope)
    requires var pretty := before + " " + scope + name + "(" + rest;
             forall j: nat | j < |before| + 1 + |scope| :: !CalledAt(pretty, name, j)
    ensures IsFullName(before + " " + scope + name + "(" + rest, name, scope + name)
  {
    var pretty, start := before + " " + scope + name + "(" + rest, |before| + 1;
    var k := start + |scope|;
    assert pretty[k..k + |name|] == name && pretty[k + |name|] == '(';
    assert CalledAt(pretty, name, k) && FirstCall(pretty, name, k);
    assert pretty[start..k + |name|] == scope + name;
    ScopeStopsScan(pretty, start, scope, name[0]);
    hide Nest, BeginsAt, CalledAt;
    assert Spans(pretty, name, k, start, scope + name);
  }

  lemma ScopeStopsScan(pretty: string, start: nat, scope: string, c: char)
    requires 0 < start && start + |scope| < |pretty| && pretty[start - 1] == ' '
    requires pretty[start..start + |scope| + 1] == scope + [c] && c != ' ' && c != '<' && c != '>' && IsScope(scope)
    ensures BeginsAt(pretty, start + |scope|, start)
  {
    hide Nest;
    var k := start + |scope|;
    NestOfPlain([c]);
    NestAdds(scope, [c]);
    assert pretty[k] == (scope + [c])[|scope|];
    forall i | start <= i < k ensures !StopsAt(pretty, k, i) {
      var j := i - start;
      assert pretty[i] == (scope + [c])[j] && pretty[i + 1..k + 1] == pretty[start..k + 1][j + 1..];
      assert (scope + [c])[j + 1..] == scope[j + 1..] + [c];
      NestAdds(scope[j + 1..], [c]);
    }
  }

  lemma BeginsBeforeName(pretty: string, name: string, k: nat, start: nat)
    requires IsName(name) && OccursAt(pretty, name, k) && k < |pretty| && BeginsAt(pretty, k, start)
    ensures start <= k && pretty[k] == name[0]
  {
    hide Nest;
    assert pretty[k] == pretty[k..k + |name|][0];
  }

  /** The view ends with the function name and does not reach beyond the text it is cut from. */
  lemma FullNameEndsWithName(pretty: string, name: string, view: string)
    requires IsName(name) && IsFullName(pretty, name, view)
    ensures |name| <= |view| && view[|view| - |name|..] == name
    ensures |view| <= |pretty| || view == name
  {
    hide BeginsAt, IsName;
    if exists k: nat :: CalledAt(pretty, name, k) {
      var k: nat, start: nat :| FirstCall(pretty, name, k) && Spans(pretty, name, k, start, view);
      BeginsBeforeName(pretty, name, k, start);
      assert view[|view| - |name|..] == pretty[k..k + |name|];
    }
  }

  lemma SpanIsBalanced(pretty: string, name: string, k: nat, start: nat, view: string)
    requires IsName(name) && FirstCall(pretty, name, k) && Spans(pretty, name, k, start, view)
    requires Balanced(pretty[..k])
    ensures view == pretty[start..k] + name && Balanced(pretty[start..k])
    ensures Balanced(view) <==> Balanced(name)
  {
    hide Nest;
    BeginsBeforeName(pretty, name, k, start);
    var middle := pretty[start..k];
    assert pretty[..k] == pretty[..start] + middle;
    if start == 0 {
      assert pretty[..k] == middle;
    } else {
      assert pretty[start..k + 1] == middle + [pretty[k]];
      NestAdds(middle, [pretty[k]]);
      NestOfPlain([pretty[k]]);
      RestIsBalanced(pretty[..start], middle);
    }
    assert view == middle + name;
    BalancedThen(middle, name);
  }

  /**
   If the text before the function name has its brackets in order, the scan stops outside all template
   arguments: the view has its brackets in order if and only if the name itself has, as every name but that of
   an operator with a bracket in it does.
   */
  lemma FullNameIsBalanced(pretty: string, name: string, view: string)
    requires IsName(name) && IsFullName(pretty, name, view)
    requires forall k: nat | FirstCall(pretty, name, k) :: k <= |pretty| && Balanced(pretty[..k])
    ensures Balanced(view) <==> Balanced(name)
  {
    hide Nest, BeginsAt;
    if exists k: nat :: CalledAt(pretty, name, k) {
      var k: nat, start: nat :| FirstCall(pretty, name, k) && Spans(pretty, name, k, start, view);
      SpanIsBalanced(pretty, name, k, start, view);
    }
  }

  lemma PlainIsBalanced(s: string)
    requires NoBrackets(s)
    ensures Balanced(s)
  {
    hide Nest;
    assert s[..|s|] == s;
    forall k | 0 <= k <= |s| ensures Nest(s[..k]) == 0 {
      NestOfPlain(s[..k]);
    }
  }

  // ----- Stripping -----

  /** Every "::" becomes ":". */
  function Collapse(s: string): string
    decreases |s|
  {
    if s == "" then ""
    else if |s| >= 2 && s[0] == ':' && s[1] == ':' then ":" + Collapse(s[2..])
    else [s[0]] + Collapse(s[1..])
  }

  /** What stands outside all brackets, begun at the given depth. */
  function Outside(s: string, depth: int): string
    decreases |s|
  {
    if s == "" then ""
    else if s[0] == '<' then Outside(s[1..], depth + 1)
    else if s[0] == '>' then Outside(s[1..], depth - 1)
    else (if depth <= 0 then [s[0]] else "") + Outside(s[1..], depth)
  }

  function Stripped(s: string): string {
    Outside(Collapse(s), 0)
  }

  /** Inside brackets, where nothing is kept, it does not matter how colons pair up. */
  lemma {:induction false} ColonsInsideVanish(rest: string, depth: int)
    requires depth > 0
    ensures Outside(Collapse(":" + rest), depth) == Outside(Collapse(rest), depth)
    decreases |rest|
  {
    var s := ":" + rest;
    if rest != "" && rest[0] == ':' {
      assert s[2..] == rest[1..] && rest == ":" + rest[1..];
      ColonsInsideVanish(rest[1..], depth);
    } else {
      assert s[1..] == rest;
    }
  }

  lemma {:induction false} StrippedFits(s: string, depth: int)
    ensures |Outside(s, depth)| <= |s| && NoBrackets(Outside(s, depth))
    decreases |s|
  {
    if s == "" {
    } else {
      StrippedFits(s[1..], if s[0] == '<' then depth + 1 else if s[0] == '>' then depth - 1 else depth);
    }
  }

  lemma {:induction false} CollapsedFits(s: string)
    ensures |Collapse(s)| <= |s|
    decreases |s|
  {
    if s == "" {
    } else if |s| >= 2 && s[0] == ':' && s[1] == ':' {
      CollapsedFits(s[2..]);
    } else {
      CollapsedFits(s[1..]);
    }
  }

  /** A character goes by: what is emitted for it, and what remains. */
  lemma StripStep(s: string, nest: int)
    requires s != ""
    ensures s[0] == '<' ==> Outside(Collapse(s), nest) == Outside(Collapse(s[1..]), nest + 1)
    ensures s[0] == '>' ==> Outside(Collapse(s), nest) == Outside(Collapse(s[1..]), nest - 1)
    ensures s[0] != '<' && s[0] != '>' && nest > 0 ==> Outside(Collapse(s), nest) == Outside(Collapse(s[1..]), nest)
    ensures |s| >= 2 && s[0] == ':' && s[1] == ':' && nest <= 0 ==> Outside(Collapse(s), nest) == ":" + Outside(Collapse(s[2..]), nest)
    ensures s[0] != '<' && s[0] != '>' && nest <= 0 && !(|s| >= 2 && s[0] == ':' && s[1] == ':') ==>
              Outside(Collapse(s), nest) == [s[0]] + Outside(Collapse(s[1..]), nest)
  {
    if |s| >= 2 && s[0] == ':' && s[1] == ':' {
      assert (":" + Collapse(s[2..]))[1..] == Collapse(s[2..]);
      if nest > 0 {
        assert s[1..] == ":" + s[2..];
        ColonsInsideVanish(s[2..], nest);
      }
    } else {
      assert ([s[0]] + Collapse(s[1..]))[1..] == Collapse(s[1..]);
    }
  }

  // ----- What stripping means -----

  lemma {:induction false} OutsideAdds(a: string, b: string, depth: int)
    ensures Outside(a + b, depth) == Outside(a, depth) + Outside(b, depth + Nest(a))
    decreases |a|
  {
    hide Nest;
    NestOfNothing();
    if a == "" {
      assert a + b == b;
    } else {
      assert (a + b)[1..] == a[1..] + b;
      NestFirst(a);
      OutsideAdds(a[1..], b, if a[0] == '<' then depth + 1 else if a[0] == '>' then depth - 1 else depth);
    }
  }

  lemma {:induction false} CollapseAtBracket(a: string, x: char, b: string)
    requires x == '<' || x == '>'
    ensures Collapse(a + [x] + b) == Collapse(a) + [x] + Collapse(b)
    decreases |a|
  {
    hide Collapse;
    var s := a + [x] + b;
    if a == "" {
      CollapseNothing();
      CollapseOther(s);
      assert s[1..] == b;
    } else if |a| >= 2 && a[0] == ':' && a[1] == ':' {
      CollapsePair(s);
      CollapsePair(a);
      assert s[2..] == a[2..] + [x] + b;
      CollapseAtBracket(a[2..], x, b);
    } else {
      assert s[0] == a[0] && (if |a| >= 2 then s[1] == a[1] else s[1] == x);
      CollapseOther(s);
      CollapseOther(a);
      assert s[1..] == a[1..] + [x] + b;
      CollapseAtBracket(a[1..], x, b);
    }
  }

  lemma {:induction false} CollapseKeepsNest(s: string)
    ensures Nest(Collapse(s)) == Nest(s)
    decreases |s|
  {
    if s == "" {
    } else if |s| >= 2 && s[0] == ':' && s[1] == ':' {
      CollapseKeepsNest(s[2..]);
      assert s == "::" + s[2..];
      NestAdds("::", s[2..]);
      NestAdds(":", Collapse(s[2..]));
      NestOfPlain("::");
      NestOfPlain(":");
    } else {
      CollapseKeepsNest(s[1..]);
      assert s == [s[0]] + s[1..];
      NestAdds([s[0]], s[1..]);
      NestAdds([s[0]], Collapse(s[1..]));
    }
  }

  /** Nothing is kept as long as the depth stays positive. */
  lemma {:induction false} InsideVanishes(s: string, depth: int)
    requires forall k | 0 <= k <= |s| :: depth + Nest(s[..k]) > 0
    ensures Outside(Collapse(s), depth) == ""
    decreases |s|
  {
    if s == "" {
    } else {
      assert s[..0] == "";
      var after := if s[0] == '<' then depth + 1 else if s[0] == '>' then depth - 1 else depth;
      forall k | 0 <= k <= |s[1..]| ensures after + Nest(s[1..][..k]) > 0 {
        assert s[..k + 1] == [s[0]] + s[1..][..k];
        NestAdds([s[0]], s[1..][..k]);
        assert [s[0]][..0] == "";
      }
      StripStep(s, depth);
      InsideVanishes(s[1..], after);
    }
  }

  /** Template arguments, whatever is nested in them, disappear with their brackets. */
  lemma TemplateArgumentsVanish(a: string, arguments: string, b: string)
    requires Balanced(a) && Balanced(arguments)
    ensures Stripped(a + "<" + arguments + ">" + b) == Stripped(a) + Stripped(b)
  {
    hide Collapse, Outside, Nest;
    CollapseAtBracket(a, '<', arguments + ">" + b);
    CollapseAtBracket(arguments, '>', b);
    CollapseKeepsNest(a);
    CollapseKeepsNest(arguments);
    InsideVanishes(arguments, 1);
    assert a + "<" + arguments + ">" + b == a + "<" + (arguments + ">" + b);
    OutsideGroup(Collapse(a), Collapse(arguments), Collapse(b));
  }

  lemma OutsideGroup(a: string, group: string, b: string)
    requires Nest(a) == 0 && Nest(group) == 0 && Outside(group, 1) == ""
    ensures Outside(a + "<" + (group + ">" + b), 0) == Outside(a, 0) + Outside(b, 0)
  {
    hide Nest;
    assert a + "<" + (group + ">" + b) == a + ("<" + (group + (">" + b)));
    OutsideAdds(a, "<" + (group + (">" + b)), 0);
    assert ("<" + (group + (">" + b)))[1..] == group + (">" + b);
    OutsideAdds(group, ">" + b, 1);
    assert (">" + b)[1..] == b;
  }

  lemma CollapseNothing()
    ensures Collapse("") == ""
  {
  }

  lemma CollapsePair(s: string)
    requires |s| >= 2 && s[0] == ':' && s[1] == ':'
    ensures Collapse(s) == ":" + Collapse(s[2..])
  {
  }

  lemma CollapseOther(s: string)
    requires s != "" && !(|s| >= 2 && s[0] == ':' && s[1] == ':')
    ensures Collapse(s) == [s[0]] + Collapse(s[1..])
  {
  }

  /** A scope separator between two names becomes a single colon. */
  lemma {:induction false} ScopesJoin(a: string, b: string)
    requires a == "" || a[|a| - 1] != ':'
    ensures Collapse(a + "::" + b) == Collapse(a) + ":" + Collapse(b)
    decreases |a|
  {
    hide Collapse;
    var s := a + "::" + b;
    if a == "" {
      CollapsePair(s);
      CollapseNothing();
      assert s[2..] == b;
    } else if |a| >= 2 && a[0] == ':' && a[1] == ':' {
      CollapsePair(s);
      CollapsePair(a);
      assert s[2..] == a[2..] + "::" + b;
      ScopesJoin(a[2..], b);
    } else {
      assert s[0] == a[0] && (|a| >= 2 ==> s[1] == a[1]);
      CollapseOther(s);
      CollapseOther(a);
      assert s[1..] == a[1..] + "::" + b;
      ScopesJoin(a[1..], b);
    }
  }

  // ----- Which characters come through -----

  /** The characters the prefix is meant to consist of. */
  predicate Promised(c: char) {
    'a' <= c <= 'z' || 'A' <= c <= 'Z' || '0' <= c <= '9' || c == '-' || c == '_' || c == ':'
  }

  predicate AllPromised(s: string) {
    forall c | c in s :: Promised(c)
  }

  /** Position `i` is no bracket and stands outside all brackets. */
  predicate Shows(s: string, depth: int, i: nat)
    requires i < |s|
  {
    s[i] != '<' && s[i] != '>' && depth + Nest(s[..i]) <= 0
  }

  /** Whatever stands outside all brackets is a promised character. */
  predicate ShowsPromised(s: string, depth: int) {
    forall i | 0 <= i < |s| && Shows(s, depth, i) :: Promised(s[i])
  }

  /** The first character goes by. */
  lemma ShowsStep(s: string, depth: int)
    requires s != ""
    ensures var after := if s[0] == '<' then depth + 1 else if s[0] == '>' then depth - 1 else depth;
            ShowsPromised(s, depth)
            <==> ShowsPromised(s[1..], after) && (s[0] == '<' || s[0] == '>' || depth > 0 || Promised(s[0]))
  {
    hide Nest;
    var after := if s[0] == '<' then depth + 1 else if s[0] == '>' then depth - 1 else depth;
    NestOfNothing();
    assert s[..0] == "";
    forall i | 0 <= i < |s| - 1 ensures Shows(s, depth, i + 1) <==> Shows(s[1..], after, i) {
      assert s[..i + 1][1..] == s[1..][..i];
      NestFirst(s[..i + 1]);
    }
    if ShowsPromised(s, depth) {
      assert Shows(s, depth, 0) ==> Promised(s[0]);
      forall i | 0 <= i < |s[1..]| && Shows(s[1..], after, i) ensures Promised(s[1..][i]) {
        assert Shows(s, depth, i + 1);
      }
    } else {
      var i :| 0 <= i < |s| && Shows(s, depth, i) && !Promised(s[i]);
      if i > 0 {
        assert Shows(s[1..], after, i - 1) && s[1..][i - 1] == s[i];
      }
    }
  }

  lemma {:induction false} OutsideIsPromisedExactlyWhen(s: string, depth: int)
    ensures AllPromised(Outside(Collapse(s), depth)) <==> ShowsPromised(s, depth)
    decreases |s|
  {
    hide Collapse, Nest, Shows, ShowsPromised;
    if s == "" {
      NothingComesThrough(depth);
    } else {
      StripStep(s, depth);
      ShowsStep(s, depth);
      hide Outside;
      var after := if s[0] == '<' then depth + 1 else if s[0] == '>' then depth - 1 else depth;
      if depth <= 0 && |s| >= 2 && s[0] == ':' && s[1] == ':' {
        ShowsStep(s[1..], depth);
        assert s[1..][1..] == s[2..];
        OutsideIsPromisedExactlyWhen(s[2..], depth);
        OneMorePromised(':', Outside(Collapse(s[2..]), depth));
      } else {
        OutsideIsPromisedExactlyWhen(s[1..], after);
        OneMorePromised(s[0], Outside(Collapse(s[1..]), after));
      }
    }
  }

  lemma NothingComesThrough(depth: int)
    ensures AllPromised(Outside(Collapse(""), depth)) && ShowsPromised("", depth)
  {
  }

  lemma OneMorePromised(c: char, s: string)
    ensures AllPromised([c] + s) <==> Promised(c) && AllPromised(s)
  {
    assert ([c] + s)[0] == c;
    forall d | d in s ensures d in [c] + s {
    }
  }

  /**
   The text of a prefix consists of letters, digits, '-', '_' and ':' if and only if no other character stands
   outside the brackets of the qualified name.
   */
  lemma PromiseIsKeptExactlyWhen(view: string)
    ensures AllPromised(Stripped(view)) <==> ShowsPromised(view, 0)
  {
    OutsideIsPromisedExactlyWhen(view, 0);
  }

  /** Whole families break the promise: a name without brackets shows in full, so any other character in it does. */
  lemma NameComesThrough(pretty: string, name: string, view: string)
    requires IsName(name) && NoBrackets(name) && IsFullName(pretty, name, view)
    requires forall k: nat | FirstCall(pretty, name, k) :: k <= |pretty| && Balanced(pretty[..k])
    ensures !AllPromised(name) ==> !AllPromised(Stripped(view))
  {
    hide Nest, BeginsAt, Balanced, Stripped, ShowsPromised, AllPromised;
    PromiseIsKeptExactlyWhen(view);
    if exists k: nat :: CalledAt(pretty, name, k) {
      var k: nat, start: nat :| FirstCall(pretty, name, k) && Spans(pretty, name, k, start, view);
      SpanIsBalanced(pretty, name, k, start, view);
      EndComesThrough(pretty[start..k], name);
    } else {
      PlainIsBalanced("");
      assert "" + name == name;
      EndComesThrough("", name);
    }
  }

  lemma EndComesThrough(before: string, name: string)
    requires Balanced(before) && NoBrackets(name)
    ensures !AllPromised(name) ==> !ShowsPromised(before + name, 0)
  {
    hide Nest;
    if !AllPromised(name) {
      var view := before + name;
      var c :| c in name && !Promised(c);
      var j :| 0 <= j < |name| && name[j] == c;
      assert view[..|before| + j] == before + name[..j] && before[..|before|] == before;
      NestAdds(before, name[..j]);
      NestOfPlain(name[..j]);
      assert Shows(view, 0, |before| + j);
    }
  }

  /** The promise is not always kept: the prefix of a destructor has its tilde. */
  lemma DestructorShowsTilde()
    ensures Stripped("S::~S") == "S:~S" && !AllPromised(Stripped("S::~S"))
  {
    assert Collapse("S::~S") == "S" + Collapse("::~S");
    assert Collapse("::~S") == ":" + Collapse("~S");
    assert Collapse("~S") == "~" + Collapse("S");
    assert Collapse("S::~S") == "S:~S";
    assert Outside("S:~S", 0) == "S" + Outside(":~S", 0);
    assert Outside(":~S", 0) == ":" + Outside("~S", 0);
    assert Outside("~S", 0) == "~" + Outside("S", 0);
    var shown := "S:~S";
    assert shown[2] == '~' && '~' in shown;
  }

  // ----- The buffer -----

  /** The text of the prefix, as it ends up in a buffer cleared beforehand. */
  ghost predicate Holds(buffer: seq<char>, text: string) {
    |text| < |buffer| && buffer[..|text|] == text && forall i | |text| <= i < |buffer| :: buffer[i] == 0 as char
  }

  function Rest(view: string, i: nat): string {
    if i < |view| then view[i..] else ""
  }

  lemma RestSteps(view: string, i: nat)
    requires i < |view|
    ensures Rest(view, i) != "" && Rest(view, i)[0] == view[i] && Rest(view, i)[1..] == Rest(view, i + 1)
    ensures |Rest(view, i)| >= 2 <==> i + 1 < |view|
    ensures i + 1 < |view| ==> Rest(view, i)[1] == view[i + 1] && Rest(view, i)[2..] == Rest(view, i + 2)
    ensures i + 1 == |view| ==> Rest(view, i + 1) == Rest(view, i + 2) == ""
  {
  }

  lemma RestEnds(view: string)
    ensures Rest(view, 0) == view
    ensures forall i: nat, nest: int | i >= |view| :: Outside(Collapse(Rest(view, i)), nest) == ""
  {
  }

  /**
   One pass over the view, into a buffer three longer than the larger of the two literals, terminators
   included. `next` is whatever follows the view in memory: the loop may look at it, to no effect.
   */
  method LocationPrefix(size: nat, view: string, next: char) returns (buffer: array<char>)
    requires |view| < size
    ensures fresh(buffer) && buffer.Length == size + 3
    ensures Holds(buffer[..], "/:" + Stripped(view) + " ")
  {
    hide Collapse, Outside, Rest;
    RestEnds(view);
    buffer := new char[size + 3](_ => 0 as char);
    CollapsedFits(view);
    StrippedFits(Collapse(view), 0);
    ghost var text := "/:" + Stripped(view);
    assert |text| + 2 <= buffer.Length;
    buffer[0], buffer[1] := '/', ':';
    var p, nest, i := 2, 0, 0;
    assert buffer[..p] == "/:";
    hide Stripped;
    while i < |view|
      invariant 2 <= p <= buffer.Length
      invariant buffer[..p] + Outside(Collapse(Rest(view, i)), nest) == text
      invariant forall j | p <= j < buffer.Length :: buffer[j] == 0 as char
      decreases |view| - i
    {
      var c := view[i];
      RestSteps(view, i);
      StripStep(Rest(view, i), nest);
      if c == '<' {
        nest := nest + 1;
      } else if c == '>' {
        nest := nest - 1;
      } else if nest <= 0 {
        ghost var before := buffer[..p];
        if c == ':' && (if i + 1 < |view| then view[i + 1] else next) == ':' {
          buffer[p] := ':';
          p := p + 1;
          i := i + 1;
        } else {
          buffer[p] := c;
          p := p + 1;
        }
        assert buffer[..p] == before + [c];
      }
      i := i + 1;
    }
    buffer[p] := ' ';
    p := p + 1;
    buffer[p] := 0 as char;
    assert buffer[..p] == text + " ";
  }

  /** The two steps together, as the logging macros take them; literals carry a terminator each. */
  method PrefixOf(pretty: string, name: string) returns (buffer: array<char>, ghost view: string)
    requires name != ""
    ensures IsFullName(pretty, name, view)
    ensures fresh(buffer) && buffer.Length == (if |pretty| > |name| then |pretty| else |name|) + 4
    ensures Holds(buffer[..], "/:" + Stripped(view) + " ")
  {
    var found, next := FindFullName(pretty, name);
    view := found;
    var size := if |pretty| > |name| then |pretty| + 1 else |name| + 1;
    buffer := LocationPrefix(size, found, next);
  }

  /** No bracket is left in the text of a prefix, whatever the brackets of the signature look like. */
  lemma PrefixHasNoBrackets(view: string)
    ensures NoBrackets("/:" + Stripped(view) + " ")
  {
    StrippedFits(Collapse(view), 0);
  }
}

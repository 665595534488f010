/** Repeated ${...} expansion of a pkg-config field.  Strings are analysed as literals and variable
    references; what a reference means is the recursive expansion of its definition. */
module VariableExpansion {

  // ---- Strings, as the Python code handles them ----

  function LowerChar(c: char): char
  {
    if 'A' <= c <= 'Z' then (c as int + 32) as char else c
  }

  /** str.lower on ASCII letters. */
  function Lower(s: string): (r: string)
    ensures |r| == |s|
  {
    seq(|s|, i requires 0 <= i < |s| => LowerChar(s[i]))
  }

  /** Equal, or the capital and the small form of one ASCII letter. */
  predicate SameLetter(a: char, b: char)
  {
    || a == b
    || ('A' <= a <= 'Z' && 'a' <= b <= 'z' && b as int - 'a' as int == a as int - 'A' as int)
    || ('A' <= b <= 'Z' && 'a' <= a <= 'z' && a as int - 'a' as int == b as int - 'A' as int)
  }

  /** Two labels differ at most in the case of their letters. */
  predicate SameButCase(a: string, b: string)
  {
    |a| == |b| && forall i :: 0 <= i < |a| ==> SameLetter(a[i], b[i])
  }

  predicate NoCapital(s: string)
  {
    forall i :: 0 <= i < |s| ==> !('A' <= s[i] <= 'Z')
  }

  /** What lowering means: the result holds no capital and differs from the original in case alone, and
      so labels that differ in case alone, and only those, become equal. */
  lemma LowerIsCaseless(s: string, t: string)
    ensures NoCapital(Lower(s)) && SameButCase(Lower(s), s)
    ensures Lower(s) == Lower(t) <==> SameButCase(s, t)
    ensures NoCapital(s) ==> Lower(s) == s
  {
    if SameButCase(s, t) {
      assert forall i :: 0 <= i < |s| ==> LowerChar(s[i]) == LowerChar(t[i]);
      assert Lower(s) == Lower(t);
    }
    if Lower(s) == Lower(t) {
      assert |s| == |t|;
      forall i | 0 <= i < |s|
        ensures SameLetter(s[i], t[i])
      {
        assert Lower(s)[i] == LowerChar(s[i]) && Lower(t)[i] == LowerChar(t[i]);
      }
    }
  }

  /** Characters before the first closing brace. */
  function UntilBrace(s: string): (n: nat)
    ensures n <= |s| && (n < |s| ==> s[n] == '}')
  {
    if s == [] || s[0] == '}' then 0 else 1 + UntilBrace(s[1..])
  }

  /** Length of the match of \$\{[^\}]+\} at the head of s, 0 when there is none. */
  function MatchLength(s: string): (n: nat)
    ensures n <= |s|
  {
    if |s| < 2 || s[0] != '$' || s[1] != '{' then 0
    else
      var k := UntilBrace(s[2..]);
      if 1 <= k < |s| - 2 then k + 3 else 0
  }

  /** re.findall */
  function FindAll(s: string): seq<string>
  {
    if s == [] then []
    else if MatchLength(s) > 0 then [s[..MatchLength(s)]] + FindAll(s[MatchLength(s)..])
    else FindAll(s[1..])
  }

  /** str.replace: left to right, occurrences do not overlap. */
  function Replace(s: string, m: string, v: string): string
    requires m != []
  {
    if s == [] then []
    else if m <= s then v + Replace(s[|m|..], m, v)
    else [s[0]] + Replace(s[1..], m, v)
  }

  // ---- Tokens ----

  datatype Token = Lit(c: char) | Var(name: string)

  /** A dollar sign occurs only at the start of a reference ${name}. */
  predicate TokenOk(t: Token)
  {
    match t
    case Lit(c) => c != '$'
    case Var(name) => name != [] && '$' !in name && '}' !in name
  }

  predicate TokensOk(ts: seq<Token>)
  {
    forall i :: 0 <= i < |ts| ==> TokenOk(ts[i])
  }

  function Text(t: Token): (s: string)
    ensures s != []
  {
    match t
    case Lit(c) => [c]
    case Var(name) => "${" + name + "}"
  }

  function Render(ts: seq<Token>): string
  {
    if ts == [] then [] else Text(ts[0]) + Render(ts[1..])
  }

  function Parse(s: string): seq<Token>
  {
    if s == [] then []
    else if MatchLength(s) > 0 then [Var(s[2..MatchLength(s) - 1])] + Parse(s[MatchLength(s)..])
    else [Lit(s[0])] + Parse(s[1..])
  }

  predicate WellFormed(s: string)
  {
    TokensOk(Parse(s))
  }

  lemma RenderCons(t: Token, ts: seq<Token>)
    ensures Render([t] + ts) == Text(t) + Render(ts)
  {
    assert ([t] + ts)[1..] == ts;
  }

  lemma MatchShape(s: string)
    requires MatchLength(s) > 0
    ensures MatchLength(s) > 3 && s[..MatchLength(s)] == Text(Var(s[2..MatchLength(s) - 1]))
  {
    var k := UntilBrace(s[2..]);
    assert s[2..][k] == s[k + 2];
  }

  lemma SplitAt<T>(s: seq<T>, n: nat)
    requires n <= |s|
    ensures s[..n] + s[n..] == s
  {}

  lemma ReferenceHead(s: string)
    requires MatchLength(s) > 0
    ensures Render(Parse(s)) == s[..MatchLength(s)] + Render(Parse(s[MatchLength(s)..]))
  {
    MatchShape(s);
    RenderCons(Var(s[2..MatchLength(s) - 1]), Parse(s[MatchLength(s)..]));
  }

  lemma LiteralHead(s: string)
    requires s != [] && MatchLength(s) == 0
    ensures Render(Parse(s)) == s[..1] + Render(Parse(s[1..]))
  {
    assert s[..1] == [s[0]];
    RenderCons(Lit(s[0]), Parse(s[1..]));
  }

  lemma {:induction false} RenderParse(s: string)
    ensures Render(Parse(s)) == s
  {
    var n := MatchLength(s);
    if n > 0 {
      ReferenceHead(s);
      RenderParse(s[n..]);
      SplitAt(s, n);
    } else if s != [] {
      LiteralHead(s);
      RenderParse(s[1..]);
      SplitAt(s, 1);
    }
  }

  lemma {:induction false} UntilBraceAt(name: string, rest: string)
    requires '}' !in name
    ensures UntilBrace(name + "}" + rest) == |name|
  {
    if name != [] {
      assert (name + "}" + rest)[1..] == name[1..] + "}" + rest;
      UntilBraceAt(name[1..], rest);
    }
  }

  lemma MatchReference(name: string, rest: string)
    requires TokenOk(Var(name))
    ensures MatchLength(Text(Var(name)) + rest) == |name| + 3
  {
    var s := Text(Var(name)) + rest;
    assert s[2..] == name + "}" + rest;
    UntilBraceAt(name, rest);
  }

  /** At position i stands a reference: "${", at least one character, "}", and neither of the characters
      '$' and '}' in between. */
  ghost predicate ReferenceAt(s: string, i: int)
  {
    exists j :: 0 <= i && i + 2 < j < |s| && s[i + 1] == '{' && s[j] == '}'
                && forall k :: i + 2 <= k < j ==> s[k] != '$' && s[k] != '}'
  }

  /** Every dollar sign starts a reference. */
  ghost predicate DollarsStartReferences(s: string)
  {
    forall i :: 0 <= i < |s| && s[i] == '$' ==> ReferenceAt(s, i)
  }

  lemma {:induction false} UntilBraceIsFirst(s: string, n: nat)
    requires n < |s| && s[n] == '}' && forall k :: 0 <= k < n ==> s[k] != '}'
    ensures UntilBrace(s) == n
  {
    if n > 0 { UntilBraceIsFirst(s[1..], n - 1); }
  }

  lemma {:induction false} NoBraceBefore(s: string)
    ensures forall k :: 0 <= k < UntilBrace(s) ==> s[k] != '}'
  {
    if s != [] && s[0] != '}' {
      NoBraceBefore(s[1..]);
      forall k | 0 <= k < UntilBrace(s)
        ensures s[k] != '}'
      {
        if k > 0 { assert s[k] == s[1..][k - 1]; }
      }
    }
  }

  /** Whether the head of the string is a match with a dollar-free name can be seen from its characters. */
  lemma HeadReference(s: string)
    requires s != [] && s[0] == '$'
    ensures ReferenceAt(s, 0) <==> MatchLength(s) > 0 && TokenOk(Var(s[2..MatchLength(s) - 1]))
  {
    if ReferenceAt(s, 0) {
      var j :| 2 < j < |s| && s[1] == '{' && s[j] == '}' && forall k :: 2 <= k < j ==> s[k] != '$' && s[k] != '}';
      forall k | 0 <= k < j - 2
        ensures s[2..][k] != '}'
      {
        assert s[2..][k] == s[k + 2];
      }
      UntilBraceIsFirst(s[2..], j - 2);
      assert s[2..MatchLength(s) - 1] == s[2..j];
    }
    if MatchLength(s) > 0 && TokenOk(Var(s[2..MatchLength(s) - 1])) {
      var j := MatchLength(s) - 1;
      assert s[2..][j - 2] == s[j];
      forall k | 2 <= k < j
        ensures s[k] != '$' && s[k] != '}'
      {
        assert s[k] == s[2..j][k - 2];
      }
    }
  }

  lemma ReferenceShift(s: string, n: nat, i: nat)
    requires n + i < |s|
    ensures ReferenceAt(s[n..], i) <==> ReferenceAt(s, n + i)
  {
    var r := s[n..];
    if ReferenceAt(r, i) {
      var j :| i + 2 < j < |r| && r[i + 1] == '{' && r[j] == '}' && forall k :: i + 2 <= k < j ==>
          r[k] != '$' && r[k] != '}';
      assert s[n + j] == '}';
      forall k | n + i + 2 <= k < n + j
        ensures s[k] != '$' && s[k] != '}'
      {
        assert s[k] == r[k - n];
      }
    }
    if ReferenceAt(s, n + i) {
      var j :| n + i + 2 < j < |s| && s[n + i + 1] == '{' && s[j] == '}'
               && forall k :: n + i + 2 <= k < j ==> s[k] != '$' && s[k] != '}';
      assert r[j - n] == '}' && r[i + 1] == '{';
    }
  }

  /** Behind a head whose only dollar sign, if any, is the first character. */
  lemma DollarsShift(s: string, n: nat)
    requires 0 < n <= |s| && forall k :: 1 <= k < n ==> s[k] != '$'
    ensures DollarsStartReferences(s) <==> (s[0] == '$' ==> ReferenceAt(s, 0)) && DollarsStartReferences(s[n..])
  {
    forall i | 0 <= i < |s| - n
      ensures ReferenceAt(s[n..], i) <==> ReferenceAt(s, n + i)
      ensures s[n..][i] == s[n + i]
    {
      ReferenceShift(s, n, i);
    }
    if DollarsStartReferences(s[n..]) && (s[0] == '$' ==> ReferenceAt(s, 0)) {
      forall i | 0 <= i < |s| && s[i] == '$'
        ensures ReferenceAt(s, i)
      {
        if i > 0 { assert s[n..][i - n] == '$'; }
      }
    }
  }

  /** The strings covered, by their characters: those in which every dollar sign starts a reference. */
  lemma {:induction false} WellFormedOnCharacters(s: string)
    ensures WellFormed(s) <==> DollarsStartReferences(s)
  {
    var n := MatchLength(s);
    if n > 0 {
      WellFormedOnCharacters(s[n..]);
      WellFormedHead(Var(s[2..n - 1]), Parse(s[n..]));
      HeadReference(s);
      if TokenOk(Var(s[2..n - 1])) {
        NamesHaveNoDollar(s, n);
        DollarsShift(s, n);
      }
    } else if s != [] {
      WellFormedOnCharacters(s[1..]);
      WellFormedHead(Lit(s[0]), Parse(s[1..]));
      if s[0] == '$' { HeadReference(s); }
      DollarsShift(s, 1);
    }
  }

  lemma WellFormedHead(t: Token, ts: seq<Token>)
    ensures TokensOk([t] + ts) <==> TokenOk(t) && TokensOk(ts)
  {
    if TokensOk([t] + ts) {
      assert ([t] + ts)[0] == t;
      assert forall i :: 0 <= i < |ts| ==> ts[i] == ([t] + ts)[i + 1];
    }
  }

  lemma NamesHaveNoDollar(s: string, n: nat)
    requires n == MatchLength(s) > 0 && TokenOk(Var(s[2..n - 1]))
    ensures forall k :: 1 <= k < n ==> s[k] != '$'
  {
    assert s[2..][n - 3] == s[n - 1];
    forall k | 2 <= k < n - 1
      ensures s[k] != '$'
    {
      assert s[k] == s[2..n - 1][k - 2];
    }
  }

  function Names(ts: seq<Token>): seq<string>
  {
    if ts == [] then []
    else (if ts[0].Var? then [ts[0].name] else []) + Names(ts[1..])
  }

  lemma {:induction false} InNames(ts: seq<Token>, name: string)
    requires Var(name) in ts
    ensures name in Names(ts)
  {
    if ts[0] != Var(name) { InNames(ts[1..], name); }
  }

  function References(names: seq<string>): (r: seq<string>)
    ensures |r| == |names| && forall i :: 0 <= i < |r| ==> r[i] == Text(Var(names[i]))
  {
    if names == [] then [] else [Text(Var(names[0]))] + References(names[1..])
  }

  /** findall on a well-formed string lists its references in order. */
  lemma {:induction false} FindAllIsReferences(ts: seq<Token>)
    requires TokensOk(ts)
    ensures FindAll(Render(ts)) == References(Names(ts))
  {
    if ts != [] {
      FindAllIsReferences(ts[1..]);
      FindAllHead(ts[0], Render(ts[1..]));
      if ts[0].Var? { assert Names(ts)[1..] == Names(ts[1..]); }
    }
  }

  lemma FindAllHead(t: Token, rest: string)
    requires TokenOk(t)
    ensures FindAll(Text(t) + rest) == (if t.Var? then [Text(t)] else []) + FindAll(rest)
  {
    var s := Text(t) + rest;
    assert s[|Text(t)|..] == rest && s[..|Text(t)|] == Text(t);
    if t.Var? {
      MatchReference(t.name, rest);
    }
  }

  function Substitute(ts: seq<Token>, name: string, vs: seq<Token>): seq<Token>
  {
    if ts == [] then []
    else (if ts[0] == Var(name) then vs else [ts[0]]) + Substitute(ts[1..], name, vs)
  }

  lemma {:induction false} RenderConcat(a: seq<Token>, b: seq<Token>)
    ensures Render(a + b) == Render(a) + Render(b)
  {
    if a == [] {
      assert a + b == b;
    } else {
      assert (a + b)[0] == a[0] && (a + b)[1..] == a[1..] + b;
      RenderConcat(a[1..], b);
    }
  }

  lemma {:induction false} ReplaceSkips(pre: string, rest: string, m: string, v: string)
    requires m != [] && m[0] !in pre
    ensures Replace(pre + rest, m, v) == pre + Replace(rest, m, v)
  {
    if pre == [] {
      assert pre + rest == rest;
    } else {
      assert (pre + rest)[0] == pre[0] && (pre + rest)[1..] == pre[1..] + rest;
      ReplaceSkips(pre[1..], rest, m, v);
      assert pre == [pre[0]] + pre[1..];
    }
  }

  lemma SameReference(n: string, k: string, rest: string)
    requires TokenOk(Var(n)) && TokenOk(Var(k)) && Text(Var(n)) <= Text(Var(k)) + rest
    ensures n == k
  {
    var a, b := Text(Var(n)), Text(Var(k)) + rest;
    assert forall i :: 0 <= i < |n| ==> n[i] == a[i + 2] == b[i + 2];
    assert forall i :: 0 <= i < |k| ==> k[i] == b[i + 2];
    assert a[|n| + 2] == '}' == b[|n| + 2] && b[|k| + 2] == '}';
  }

  lemma ReplaceSame(name: string, rest: string, v: string)
    ensures Replace(Text(Var(name)) + rest, Text(Var(name)), v) == v + Replace(rest, Text(Var(name)), v)
  {
    var m := Text(Var(name));
    assert (m + rest)[|m|..] == rest;
  }

  lemma ReplaceOther(t: Token, rest: string, name: string, v: string)
    requires TokenOk(t) && TokenOk(Var(name)) && t != Var(name)
    ensures Replace(Text(t) + rest, Text(Var(name)), v) == Text(t) + Replace(rest, Text(Var(name)), v)
  {
    var m, text := Text(Var(name)), Text(t);
    var s := text + rest;
    assert m[0] == '$' && s[0] == text[0];
    assert !(m <= s) by {
      if m <= s && t.Var? { SameReference(name, t.name, rest); }
    }
    assert s[1..] == text[1..] + rest && text == [text[0]] + text[1..];
    assert '$' !in text[1..];
    ReplaceSkips(text[1..], rest, m, v);
  }

  /** str.replace of a reference acts on the whole references only. */
  lemma {:induction false} ReplaceIsSubstitute(ts: seq<Token>, name: string, vs: seq<Token>)
    requires TokensOk(ts) && TokenOk(Var(name))
    ensures Replace(Render(ts), Text(Var(name)), Render(vs)) == Render(Substitute(ts, name, vs))
  {
    if ts != [] {
      ReplaceIsSubstitute(ts[1..], name, vs);
      if ts[0] == Var(name) {
        ReplaceSame(name, Render(ts[1..]), Render(vs));
        RenderConcat(vs, Substitute(ts[1..], name, vs));
      } else {
        ReplaceOther(ts[0], Render(ts[1..]), name, Render(vs));
        RenderCons(ts[0], Substitute(ts[1..], name, vs));
      }
    }
  }

  // ---- Definitions and their meaning ----

  type Defines = map<string, seq<Token>>

  predicate Defined(defs: Defines, t: Token)
  {
    t.Var? && Lower(t.name) in defs
  }

  /** The definition of key `n` unfolds completely within k levels. */
  predicate Grounded(defs: Defines, n: string, k: nat)
    requires n in defs
    decreases k
  {
    k > 0 && forall i :: 0 <= i < |defs[n]| && Defined(defs, defs[n][i]) ==>
      Grounded(defs, Lower(defs[n][i].name), k - 1)
  }

  predicate AllGrounded(defs: Defines, ts: seq<Token>, k: nat)
  {
    forall i :: 0 <= i < |ts| && Defined(defs, ts[i]) ==> Grounded(defs, Lower(ts[i].name), k)
  }

  /** The full expansion: every defined reference is replaced by the expansion of its definition,
      undefined ones stay. */
  function Expand(defs: Defines, ts: seq<Token>, k: nat): seq<Token>
    requires AllGrounded(defs, ts, k)
    decreases k, |ts|
  {
    if ts == [] then []
    else
      (if Defined(defs, ts[0]) then Expand(defs, defs[Lower(ts[0].name)], k - 1) else [ts[0]])
      + Expand(defs, ts[1..], k)
  }

  lemma {:induction false} GroundedMonotone(defs: Defines, n: string, k: nat)
    requires n in defs && Grounded(defs, n, k)
    ensures Grounded(defs, n, k + 1)
    decreases k
  {
    forall i | 0 <= i < |defs[n]| && Defined(defs, defs[n][i])
      ensures Grounded(defs, Lower(defs[n][i].name), k)
    {
      GroundedMonotone(defs, Lower(defs[n][i].name), k - 1);
    }
  }

  lemma AllGroundedMonotone(defs: Defines, ts: seq<Token>, k: nat)
    requires AllGrounded(defs, ts, k)
    ensures AllGrounded(defs, ts, k + 1)
  {
    forall i | 0 <= i < |ts| && Defined(defs, ts[i])
      ensures Grounded(defs, Lower(ts[i].name), k + 1)
    {
      GroundedMonotone(defs, Lower(ts[i].name), k);
    }
  }

  lemma {:induction false} ExpandStable(defs: Defines, ts: seq<Token>, k: nat)
    requires AllGrounded(defs, ts, k) && AllGrounded(defs, ts, k + 1)
    ensures Expand(defs, ts, k) == Expand(defs, ts, k + 1)
    decreases k, |ts|
  {
    if ts != [] {
      if Defined(defs, ts[0]) { ExpandStable(defs, defs[Lower(ts[0].name)], k - 1); }
      ExpandStable(defs, ts[1..], k);
    }
  }

  lemma {:induction false} ExpandConcat(defs: Defines, a: seq<Token>, b: seq<Token>, k: nat)
    requires AllGrounded(defs, a, k) && AllGrounded(defs, b, k) && AllGrounded(defs, a + b, k)
    ensures Expand(defs, a + b, k) == Expand(defs, a, k) + Expand(defs, b, k)
    decreases |a|
  {
    if a == [] {
      assert a + b == b;
    } else {
      assert (a + b)[0] == a[0] && (a + b)[1..] == a[1..] + b;
      ExpandConcat(defs, a[1..], b, k);
    }
  }

  lemma {:induction false} ExpandUndefined(defs: Defines, ts: seq<Token>, k: nat)
    requires forall i :: 0 <= i < |ts| ==> !Defined(defs, ts[i])
    ensures AllGrounded(defs, ts, k) && Expand(defs, ts, k) == ts
    decreases |ts|
  {
    if ts != [] {
      ExpandUndefined(defs, ts[1..], k);
    }
  }

  /** Replacing a defined reference keeps the full expansion. */
  lemma {:induction false} SubstituteKeepsMeaning(defs: Defines, ts: seq<Token>, name: string, k: nat)
    requires Lower(name) in defs && AllGrounded(defs, ts, k)
    ensures var r := Substitute(ts, name, defs[Lower(name)]);
            AllGrounded(defs, r, k) && Expand(defs, r, k) == Expand(defs, ts, k)
    decreases |ts|
  {
    if ts != [] {
      var vs := defs[Lower(name)];
      var tail := Substitute(ts[1..], name, vs);
      SubstituteKeepsMeaning(defs, ts[1..], name, k);
      if ts[0] == Var(name) {
        AllGroundedMonotone(defs, vs, k - 1);
        ExpandStable(defs, vs, k - 1);
        ExpandConcat(defs, vs, tail, k);
      } else {
        assert ([ts[0]] + tail)[1..] == tail;
      }
    }
  }

  // ---- One pass of the loop ----

  /** Replace the listed references one after the other; undefined ones are passed over. */
  function Pass(defs: Defines, ts: seq<Token>, names: seq<string>): seq<Token>
    decreases |names|
  {
    if names == [] then ts
    else
      var ts1 := if Lower(names[0]) in defs then Substitute(ts, names[0], defs[Lower(names[0])]) else ts;
      Pass(defs, ts1, names[1..])
  }

  lemma {:induction false} PassKeepsMeaning(defs: Defines, ts: seq<Token>, names: seq<string>, k: nat)
    requires AllGrounded(defs, ts, k)
    ensures AllGrounded(defs, Pass(defs, ts, names), k)
    ensures Expand(defs, Pass(defs, ts, names), k) == Expand(defs, ts, k)
    decreases |names|
  {
    if names != [] {
      if Lower(names[0]) in defs {
        SubstituteKeepsMeaning(defs, ts, names[0], k);
        PassKeepsMeaning(defs, Substitute(ts, names[0], defs[Lower(names[0])]), names[1..], k);
      } else {
        PassKeepsMeaning(defs, ts, names[1..], k);
      }
    }
  }

  /** Every defined reference is one level lower or still on the list. */
  ghost predicate LowerOrListed(defs: Defines, ts: seq<Token>, names: seq<string>, k: nat)
  {
    forall i :: 0 <= i < |ts| && Defined(defs, ts[i]) ==> Grounded(defs, Lower(ts[i].name), k) || ts[i].name in names
  }

  lemma {:induction false} SubstituteLowers(defs: Defines, ts: seq<Token>, name: string, names: seq<string>, k: nat)
    requires Lower(name) in defs && AllGrounded(defs, ts, k + 1)
    requires LowerOrListed(defs, ts, [name] + names, k)
    ensures LowerOrListed(defs, Substitute(ts, name, defs[Lower(name)]), names, k)
    decreases |ts|
  {
    if ts != [] {
      SubstituteLowers(defs, ts[1..], name, names, k);
    }
  }

  /** A pass over any list that contains all the references of the string, in any order, lowers the
      greatest level of a defined reference by one. */
  lemma {:induction false} PassLowers(defs: Defines, ts: seq<Token>, names: seq<string>, k: nat)
    requires AllGrounded(defs, ts, k + 1) && LowerOrListed(defs, ts, names, k)
    ensures AllGrounded(defs, Pass(defs, ts, names), k)
    decreases |names|
  {
    if names != [] {
      assert names == [names[0]] + names[1..];
      if Lower(names[0]) in defs {
        SubstituteLowers(defs, ts, names[0], names[1..], k);
        SubstituteKeepsMeaning(defs, ts, names[0], k + 1);
        PassLowers(defs, Substitute(ts, names[0], defs[Lower(names[0])]), names[1..], k);
      } else {
        PassLowers(defs, ts, names[1..], k);
      }
    }
  }

  // ---- When does the loop end? ----

  /** The state of the loop after n passes. */
  function Passes(defs: Defines, ts: seq<Token>, n: nat): seq<Token>
  {
    if n == 0 then ts
    else
      var before := Passes(defs, ts, n - 1);
      Pass(defs, before, Names(before))
  }

  /** The loop stops when a pass finds nothing defined. */
  predicate Settled(defs: Defines, ts: seq<Token>)
  {
    forall i :: 0 <= i < |ts| ==> !Defined(defs, ts[i])
  }

  lemma AllListed(defs: Defines, ts: seq<Token>, k: nat)
    ensures LowerOrListed(defs, ts, Names(ts), k)
  {
    forall i | 0 <= i < |ts| && Defined(defs, ts[i])
      ensures ts[i].name in Names(ts)
    {
      InNames(ts, ts[i].name);
    }
  }

  lemma {:induction false} PassesLower(defs: Defines, ts: seq<Token>, k: nat, n: nat)
    requires AllGrounded(defs, ts, k) && n <= k
    ensures AllGrounded(defs, Passes(defs, ts, n), k - n)
  {
    if n > 0 {
      PassesLower(defs, ts, k, n - 1);
      var before := Passes(defs, ts, n - 1);
      AllListed(defs, before, k - n);
      PassLowers(defs, before, Names(before), k - n);
    }
  }

  /** The keys that unfold within k levels. */
  ghost function Level(defs: Defines, k: nat): set<string>
  {
    set n | n in defs && Grounded(defs, n, k)
  }

  lemma LevelGrows(defs: Defines, k: nat)
    ensures Level(defs, k) <= Level(defs, k + 1)
  {
    forall n: string | n in defs && Grounded(defs, n, k)
      ensures n in Level(defs, k + 1)
    {
      GroundedMonotone(defs, n, k);
    }
  }

  lemma LevelStops(defs: Defines, k: nat)
    requires Level(defs, k) == Level(defs, k + 1)
    ensures Level(defs, k + 1) == Level(defs, k + 2)
  {
    forall n: string | n in defs && Grounded(defs, n, k + 2)
      ensures n in Level(defs, k + 1)
    {
      forall i | 0 <= i < |defs[n]| && Defined(defs, defs[n][i])
        ensures Grounded(defs, Lower(defs[n][i].name), k)
      {
        assert Lower(defs[n][i].name) in Level(defs, k + 1);
      }
    }
    LevelGrows(defs, k + 1);
  }

  /** The levels grow strictly until they stop for good, so they have stopped at level |defs|. */
  lemma {:induction false} LevelsStopBySize(defs: Defines, k: nat)
    ensures Level(defs, k) == Level(defs, k + 1) || |Level(defs, k + 1)| > k
  {
    LevelGrows(defs, k);
    if k > 0 {
      LevelsStopBySize(defs, k - 1);
      if Level(defs, k - 1) == Level(defs, k) {
        LevelStops(defs, k - 1);
      } else if Level(defs, k) != Level(defs, k + 1) {
        Grew(Level(defs, k), Level(defs, k + 1));
      }
    } else if Level(defs, 0) != Level(defs, 1) {
      Grew(Level(defs, 0), Level(defs, 1));
    }
  }

  lemma Grew(a: set<string>, b: set<string>)
    requires a <= b && a != b
    ensures |b| > |a|
  {
    var x :| x in b && x !in a;
    assert |b - a| > 0 by { assert x in b - a; }
    assert b == a + (b - a);
  }

  lemma LevelBounded(defs: Defines, k: nat)
    ensures |Level(defs, k)| <= |defs|
  {
    Included(Level(defs, k), defs.Keys);
    assert |defs.Keys| == |defs|;
  }

  lemma Included(a: set<string>, b: set<string>)
    requires a <= b
    ensures |a| <= |b|
  {
    assert b == a + (b - a);
  }

  lemma LevelFixed(defs: Defines)
    ensures Level(defs, |defs|) == Level(defs, |defs| + 1)
  {
    LevelsStopBySize(defs, |defs|);
    LevelBounded(defs, |defs| + 1);
  }

  lemma {:induction false} GroundedWithinSize(defs: Defines, n: string, k: nat)
    requires n in defs && Grounded(defs, n, k)
    ensures Grounded(defs, n, |defs|)
  {
    var j := k;
    if k <= |defs| {
      while j < |defs|
        invariant k <= j <= |defs| && Grounded(defs, n, j)
      {
        GroundedMonotone(defs, n, j);
        j := j + 1;
      }
    } else {
      LevelFixedBeyond(defs, k - |defs|);
      assert n in Level(defs, k);
    }
  }

  lemma {:induction false} LevelFixedBeyond(defs: Defines, d: nat)
    ensures Level(defs, |defs| + d) == Level(defs, |defs| + d + 1) == Level(defs, |defs|)
  {
    if d == 0 {
      LevelFixed(defs);
    } else {
      LevelFixedBeyond(defs, d - 1);
      LevelStops(defs, |defs| + d - 1);
    }
  }

  /** A reference to a key that never unfolds completely, such as one on a cycle. */
  ghost predicate Hopeless(defs: Defines, ts: seq<Token>)
  {
    !AllGrounded(defs, ts, |defs|)
  }

  lemma HopelessDefinition(defs: Defines, n: string)
    requires n in defs && !Grounded(defs, n, |defs|)
    ensures Hopeless(defs, defs[n])
  {
    if !Hopeless(defs, defs[n]) {
      assert Grounded(defs, n, |defs| + 1);
      GroundedWithinSize(defs, n, |defs| + 1);
    }
  }

  lemma {:induction false} SubstituteStaysHopeless(defs: Defines, ts: seq<Token>, name: string)
    requires Lower(name) in defs && Hopeless(defs, ts)
    ensures Hopeless(defs, Substitute(ts, name, defs[Lower(name)]))
    decreases |ts|
  {
    var i :| 0 <= i < |ts| && Defined(defs, ts[i]) && !Grounded(defs, Lower(ts[i].name), |defs|);
    var vs := defs[Lower(name)];
    var tail := Substitute(ts[1..], name, vs);
    if i == 0 {
      var head := if ts[0] == Var(name) then vs else [ts[0]];
      if ts[0] == Var(name) {
        HopelessDefinition(defs, Lower(name));
      } else {
        assert head[0] == ts[0] && Defined(defs, head[0]) && !Grounded(defs, Lower(head[0].name), |defs|);
      }
      HopelessConcat(defs, head, tail);
    } else {
      assert ts[1..][i - 1] == ts[i];
      SubstituteStaysHopeless(defs, ts[1..], name);
      HopelessConcat(defs, if ts[0] == Var(name) then vs else [ts[0]], tail);
    }
  }

  lemma HopelessConcat(defs: Defines, a: seq<Token>, b: seq<Token>)
    requires Hopeless(defs, a) || Hopeless(defs, b)
    ensures Hopeless(defs, a + b)
  {
    if AllGrounded(defs, a + b, |defs|) {
      forall i | 0 <= i < |a| && Defined(defs, a[i])
        ensures Grounded(defs, Lower(a[i].name), |defs|)
      {
        assert (a + b)[i] == a[i];
      }
      forall i | 0 <= i < |b| && Defined(defs, b[i])
        ensures Grounded(defs, Lower(b[i].name), |defs|)
      {
        assert (a + b)[|a| + i] == b[i];
      }
    }
  }

  lemma {:induction false} PassStaysHopeless(defs: Defines, ts: seq<Token>, names: seq<string>)
    requires Hopeless(defs, ts)
    ensures Hopeless(defs, Pass(defs, ts, names))
    decreases |names|
  {
    if names != [] {
      if Lower(names[0]) in defs {
        SubstituteStaysHopeless(defs, ts, names[0]);
        PassStaysHopeless(defs, Substitute(ts, names[0], defs[Lower(names[0])]), names[1..]);
      } else {
        PassStaysHopeless(defs, ts, names[1..]);
      }
    }
  }

  lemma {:induction false} PassesStayHopeless(defs: Defines, ts: seq<Token>, n: nat)
    requires Hopeless(defs, ts)
    ensures Hopeless(defs, Passes(defs, ts, n))
  {
    if n > 0 {
      PassesStayHopeless(defs, ts, n - 1);
      PassStaysHopeless(defs, Passes(defs, ts, n - 1), Names(Passes(defs, ts, n - 1)));
    }
  }

  ghost predicate Ends(defs: Defines, ts: seq<Token>)
  {
    exists n: nat :: Settled(defs, Passes(defs, ts, n))
  }

  lemma EndsAfter(defs: Defines, ts: seq<Token>, n: nat)
    requires Settled(defs, Passes(defs, ts, n))
    ensures Ends(defs, ts)
  {}

  /** The loop of `get` ends if and only if every reference of the string unfolds completely, which
      can be decided beforehand within as many levels as there are definitions. */
  lemma EndsIff(defs: Defines, ts: seq<Token>)
    ensures Ends(defs, ts) <==> AllGrounded(defs, ts, |defs|)
  {
    if AllGrounded(defs, ts, |defs|) {
      PassesLower(defs, ts, |defs|, |defs|);
      EndsAfter(defs, ts, |defs|);
    } else {
      forall n: nat
        ensures !Settled(defs, Passes(defs, ts, n))
      {
        PassesStayHopeless(defs, ts, n);
      }
    }
  }

  /** One turn of the loop: the expansion is kept and one level gained. */
  lemma TurnWorks(defs: Defines, ts: seq<Token>, k: nat)
    requires AllGrounded(defs, ts, k)
    ensures k == 0 ==> Settled(defs, ts)
    ensures k > 0 ==>
              var r := Pass(defs, ts, Names(ts));
              AllGrounded(defs, r, k - 1) && Expand(defs, r, k - 1) == Expand(defs, ts, k)
  {
    if k > 0 {
      PassKeepsMeaning(defs, ts, Names(ts), k);
      AllListed(defs, ts, k - 1);
      PassLowers(defs, ts, Names(ts), k - 1);
      ExpandStable(defs, Pass(defs, ts, Names(ts)), k - 1);
    }
  }

  // ---- The class ----

  datatype Result<+T> = Success(value: T) | LabelNotFound

  ghost function Parsed(defines: map<string, string>): (d: Defines)
    ensures |d| == |defines|
  {
    var d := map n | n in defines :: Parse(defines[n]);
    assert d.Keys == defines.Keys;
    d
  }

  /** Field and definitions are well formed and the field unfolds completely, so that the loop ends. */
  ghost predicate Expandable(defines: map<string, string>, field: string)
  {
    && WellFormed(field)
    && (forall n :: n in defines ==> WellFormed(defines[n]))
    && AllGrounded(Parsed(defines), Parse(field), |defines|)
  }

  ghost function Expansion(defines: map<string, string>, field: string): string
    requires Expandable(defines, field)
  {
    Render(Expand(Parsed(defines), Parse(field), |defines|))
  }

  class Package {
    var defines: map<string, string>
    var fields: map<string, string>

    constructor (defines: map<string, string>, fields: map<string, string>)
      ensures this.defines == defines && this.fields == fields
    {
      this.defines, this.fields := defines, fields;
    }

    /** get: for a field that unfolds completely, the result is exactly its full expansion, with
        undefined references left untouched. */
    method Get(key: string) returns (r: Result<string>)
      requires Lower(key) in fields ==> Expandable(defines, fields[Lower(key)])
      ensures r == if Lower(key) !in fields then LabelNotFound else Success(Expansion(defines, fields[Lower(key)]))
      // fields are stored under labels without capitals; the label asked for may be in any case
      ensures forall k :: k in fields && NoCapital(k) && SameButCase(k, key) ==>
                Expandable(defines, fields[k]) && r == Success(Expansion(defines, fields[k]))
      ensures r.LabelNotFound? <==> forall k :: k in fields && NoCapital(k) ==> !SameButCase(k, key)
    {
      LabelIsCaseless(fields, key);
      if Lower(key) !in fields { return LabelNotFound; }
      var field := fields[Lower(key)];
      ParsedIsAnalysed(defines);
      RenderParse(field);
      var s := ExpandFully(field, Parsed(defines), Parse(field));
      r := Success(s);
    }

    /** The outer loop of get. */
    method ExpandFully(field: string, ghost defs: Defines, ghost ts0: seq<Token>) returns (s: string)
      requires Analysed(defines, defs) && field == Render(ts0) && TokensOk(ts0) && AllGrounded(defs, ts0, |defs|)
      ensures s == Render(Expand(defs, ts0, |defs|))
    {
      s := field;
      ghost var ts, k: nat := ts0, |defs|;
      ghost var goal := Expand(defs, ts0, |defs|);
      var expanded := true;
      while expanded
        invariant OnTheWay(defs, s, ts, k, goal)
        invariant !expanded ==> Settled(defs, ts)
        decreases k, expanded
      {
        FoundAll(defs, s, ts, k, goal);
        var ms := FindAll(s);
        ghost var was := ts;
        s, expanded, ts := ReplaceAll(s, ms, defs, ts);
        k := OneTurn(defs, s, was, ts, k, goal);
      }
      Arrived(defs, s, ts, k, goal);
    }

    /** The inner loop of get: one pass over the references found. */
    method ReplaceAll(s0: string, ms: seq<string>, ghost defs: Defines, ghost ts: seq<Token>)
      returns (s: string, expanded: bool, ghost ts': seq<Token>)
      requires Analysed(defines, defs) && s0 == Render(ts) && TokensOk(ts) && ms == References(Names(ts))
      ensures ts' == Pass(defs, ts, Names(ts)) && s == Render(ts') && TokensOk(ts')
      ensures expanded <==> !Settled(defs, ts)
      ensures !expanded ==> ts' == ts
    {
      ghost var names := Names(ts);
      s, expanded, ts' := s0, false, ts;
      for i := 0 to |ms|
        invariant s == Render(ts') && TokensOk(ts')
        invariant Pass(defs, ts', names[i..]) == Pass(defs, ts, names)
        invariant !expanded ==> ts' == ts
        invariant expanded <==> !NoneDefined(defs, names[..i])
      {
        var m := ms[i];
        var mn := m[2..|m| - 1];
        assert mn == names[i];
        TakeNext(names, i);
        PassNext(defs, ts', names, i);
        NoneDefinedNext(defs, names[..i], mn);
        if Lower(mn) in defines {
          NamesAreOk(ts, i);
          ReplaceStep(defines, defs, ts', mn);
          s := Replace(s, m, defines[Lower(mn)]);
          ts' := Substitute(ts', mn, defs[Lower(mn)]);
          expanded := true;
        }
      }
      TakeAll(names);
      SettledIff(defs, ts);
    }
  }

  /** The stored label that a label in any case names, if there is one. */
  lemma LabelIsCaseless(fields: map<string, string>, key: string)
    ensures forall k :: k in fields && NoCapital(k) && SameButCase(k, key) ==> k == Lower(key)
    ensures NoCapital(Lower(key)) && SameButCase(Lower(key), key)
  {
    LowerIsCaseless(key, key);
    forall k | k in fields && NoCapital(k) && SameButCase(k, key)
      ensures k == Lower(key)
    {
      LowerIsCaseless(k, key);
    }
  }

  /** A reference in any case expands by the definition stored under the name without capitals. */
  lemma ReferenceIsCaseless(defs: Defines, name: string, n: string, k: nat)
    requires n in defs && NoCapital(n) && SameButCase(n, name) && AllGrounded(defs, [Var(name)], k)
    ensures k > 0 && AllGrounded(defs, defs[n], k - 1)
    ensures Expand(defs, [Var(name)], k) == Expand(defs, defs[n], k - 1)
  {
    LowerIsCaseless(n, name);
    assert Defined(defs, [Var(name)][0]);
    assert [Var(name)][1..] == [];
    assert Expand(defs, [], k) == [];
  }

  /** `defs` are the definitions split into tokens. */
  ghost predicate Analysed(defines: map<string, string>, defs: Defines)
  {
    && defines.Keys == defs.Keys
    && forall n :: n in defines ==> TokensOk(defs[n]) && Render(defs[n]) == defines[n]
  }

  lemma ParsedIsAnalysed(defines: map<string, string>)
    requires forall n :: n in defines ==> WellFormed(defines[n])
    ensures Analysed(defines, Parsed(defines))
  {
    forall n | n in defines
      ensures TokensOk(Parsed(defines)[n]) && Render(Parsed(defines)[n]) == defines[n]
    {
      RenderParse(defines[n]);
    }
  }

  /** The string is the rendering of tokens that unfold, within k levels, to the goal. */
  ghost predicate OnTheWay(defs: Defines, s: string, ts: seq<Token>, k: nat, goal: seq<Token>)
  {
    s == Render(ts) && TokensOk(ts) && AllGrounded(defs, ts, k) && Expand(defs, ts, k) == goal
  }

  lemma FoundAll(defs: Defines, s: string, ts: seq<Token>, k: nat, goal: seq<Token>)
    requires OnTheWay(defs, s, ts, k, goal)
    ensures FindAll(s) == References(Names(ts))
  {
    FindAllIsReferences(ts);
  }

  lemma OneTurn(defs: Defines, s: string, was: seq<Token>, ts: seq<Token>, k: nat, goal: seq<Token>) returns (k': nat)
    requires AllGrounded(defs, was, k) && Expand(defs, was, k) == goal
    requires ts == Pass(defs, was, Names(was)) && s == Render(ts) && TokensOk(ts)
    requires Settled(defs, was) ==> ts == was
    ensures OnTheWay(defs, s, ts, k', goal)
    ensures if Settled(defs, was) then k' == k else k' < k
  {
    TurnWorks(defs, was, k);
    k' := if Settled(defs, was) then k else k - 1;
  }

  lemma Arrived(defs: Defines, s: string, ts: seq<Token>, k: nat, goal: seq<Token>)
    requires OnTheWay(defs, s, ts, k, goal) && Settled(defs, ts)
    ensures s == Render(goal)
  {
    ExpandUndefined(defs, ts, k);
  }

  predicate NoneDefined(defs: Defines, names: seq<string>)
  {
    forall n :: n in names ==> Lower(n) !in defs
  }

  lemma TakeNext<T>(s: seq<T>, i: nat)
    requires i < |s|
    ensures s[..i + 1] == s[..i] + [s[i]]
  {}

  lemma TakeAll<T>(s: seq<T>)
    ensures s[..|s|] == s
  {}

  lemma DropNext<T>(s: seq<T>, i: nat)
    requires i < |s|
    ensures s[i..] != [] && s[i..][0] == s[i] && s[i..][1..] == s[i + 1..]
  {}

  lemma PassNext(defs: Defines, ts: seq<Token>, names: seq<string>, i: nat)
    requires i < |names|
    ensures Pass(defs, ts, names[i..]) ==
            Pass(defs, if Lower(names[i]) in defs then Substitute(ts, names[i], defs[Lower(names[i])])
              else ts, names[i + 1..])
  {
    DropNext(names, i);
  }

  lemma NoneDefinedNext(defs: Defines, names: seq<string>, n: string)
    ensures NoneDefined(defs, names + [n]) <==> NoneDefined(defs, names) && Lower(n) !in defs
  {
    if NoneDefined(defs, names + [n]) {
      forall k | k in names
        ensures Lower(k) !in defs
      {
        assert k in names + [n];
      }
      assert n in names + [n];
    }
  }

  lemma ReplaceStep(defines: map<string, string>, defs: Defines, ts: seq<Token>, name: string)
    requires Analysed(defines, defs) && TokensOk(ts) && TokenOk(Var(name)) && Lower(name) in defines
    ensures var r := Substitute(ts, name, defs[Lower(name)]);
            TokensOk(r) && Replace(Render(ts), Text(Var(name)), defines[Lower(name)]) == Render(r)
  {
    ReplaceIsSubstitute(ts, name, defs[Lower(name)]);
    SubstituteOk(ts, name, defs[Lower(name)]);
  }

  lemma {:induction false} NamesAreOk(ts: seq<Token>, i: nat)
    requires TokensOk(ts) && i < |Names(ts)|
    ensures TokenOk(Var(Names(ts)[i])) && Var(Names(ts)[i]) in ts
  {
    if ts[0].Var? {
      if i > 0 { NamesAreOk(ts[1..], i - 1); }
    } else {
      NamesAreOk(ts[1..], i);
    }
  }

  lemma {:induction false} SubstituteOk(ts: seq<Token>, name: string, vs: seq<Token>)
    requires TokensOk(ts) && TokensOk(vs)
    ensures TokensOk(Substitute(ts, name, vs))
  {
    if ts != [] { SubstituteOk(ts[1..], name, vs); }
  }

  lemma SettledIff(defs: Defines, ts: seq<Token>)
    requires TokensOk(ts)
    ensures Settled(defs, ts) <==> NoneDefined(defs, Names(ts))
  {
    if !Settled(defs, ts) {
      var i :| 0 <= i < |ts| && Defined(defs, ts[i]);
      InNames(ts, ts[i].name);
    } else {
      forall j | 0 <= j < |Names(ts)|
        ensures Lower(Names(ts)[j]) !in defs
      {
        NamesAreOk(ts, j);
      }
    }
  }
}

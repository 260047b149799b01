/**
  Composite destinations: a name that lists several, separated by commas.  The decomposition is
  computed once and kept until the name changes.
 */
module CompositeDestinations {
  import opened Collections
  import opened Options
  import opened DestinationNames

  // ---- Tokens ----

  predicate Blank(c: char) {
    c == ' ' || c == '\t'
  }

  /** The text without blanks at its ends. */
  function Trim(s: string): (r: string)
    ensures r == "" || (!Blank(r[0]) && !Blank(r[|r| - 1]))
    ensures forall c :: c in r ==> c in s
    decreases |s|
  {
    if s == "" then ""
    else if Blank(s[0]) then Trim(s[1..])
    else if Blank(s[|s| - 1]) then Trim(s[..|s| - 1])
    else s
  }

  /** What trimming means: t lies in s between blanks, and does not begin or end with one. */
  ghost predicate TrimmedAt(s: string, i: int, j: int) {
    && 0 <= i <= j <= |s|
    && (forall k :: 0 <= k < i ==> s[k] == ' ' || s[k] == '\t')
    && (forall k :: j <= k < |s| ==> s[k] == ' ' || s[k] == '\t')
    && (i < j ==> s[i] != ' ' && s[i] != '\t' && s[j - 1] != ' ' && s[j - 1] != '\t')
  }

  lemma {:induction false} TrimFound(s: string) returns (i: nat, j: nat)
    ensures TrimmedAt(s, i, j) && Trim(s) == s[i..j]
    decreases |s|
  {
    if s == "" {
      i, j := 0, 0;
    } else if Blank(s[0]) {
      i, j := TrimFound(s[1..]);
      assert forall k :: 0 <= k < |s| - 1 ==> s[1..][k] == s[k + 1];
      assert s[1..][i..j] == s[i + 1..j + 1];
      i, j := i + 1, j + 1;
      forall k | 0 <= k < i ensures s[k] == ' ' || s[k] == '\t' {
        if k > 0 { assert s[1..][k - 1] == s[k]; }
      }
      forall k | j <= k < |s| ensures s[k] == ' ' || s[k] == '\t' {
        assert s[1..][k - 1] == s[k];
      }
    } else if Blank(s[|s| - 1]) {
      var t := s[..|s| - 1];
      i, j := TrimFound(t);
      assert t[i..j] == s[i..j];
      forall k | j <= k < |s| ensures s[k] == ' ' || s[k] == '\t' {
        if k < |s| - 1 { assert t[k] == s[k]; }
      }
    } else {
      i, j := 0, |s|;
    }
  }

  /** Trimming is the only way to read "without the blanks at its ends". */
  lemma TrimExact(s: string, i: int, j: int)
    requires TrimmedAt(s, i, j)
    ensures Trim(s) == s[i..j]
  {
    var a, b := TrimFound(s);
    if i < j {
      assert a <= i && j <= b;
      assert i <= a && b <= j;
    } else {
      assert a == b;
    }
  }

  /** Trimming leaves nothing exactly of a text that is all blank. */
  lemma TrimEmpty(s: string)
    ensures Trim(s) == "" <==> forall k :: 0 <= k < |s| ==> s[k] == ' ' || s[k] == '\t'
  {
    var i, j := TrimFound(s);
    if i < j { assert s[i] != ' ' && s[i] != '\t'; }
  }

  /** A maximal stretch without commas. */
  ghost predicate Run(s: string, i: int, j: int) {
    && 0 <= i < j <= |s|
    && (forall k :: i <= k < j ==> s[k] != ',')
    && (i == 0 || s[i - 1] == ',')
    && (j == |s| || s[j] == ',')
  }

  /** The non-empty trimmed tokens that end at or before p. */
  ghost function TokensUpTo(s: string, p: int): set<string>
    requires p <= |s|
  {
    set i, j | 0 <= i < p + 1 && 0 <= j < p + 1 && Run(s, i, j) && Trim(s[i..j]) != "" :: Trim(s[i..j])
  }

  ghost function Tokens(s: string): set<string> {
    TokensUpTo(s, |s|)
  }

  /** A token, said without trimming: the text of a maximal stretch between its blank ends. */
  ghost predicate IsToken(s: string, t: string) {
    exists a, b, i, j :: Run(s, a, b) && TrimmedAt(s[a..b], i, j) && i < j && t == s[a..b][i..j]
  }

  lemma TokensExact(s: string, t: string)
    ensures t in Tokens(s) <==> IsToken(s, t)
  {
    if t in Tokens(s) {
      var a, b :| 0 <= a < |s| + 1 && 0 <= b < |s| + 1 && Run(s, a, b) && Trim(s[a..b]) != "" && Trim(s[a..b]) == t;
      var i, j := TrimFound(s[a..b]);
      assert Run(s, a, b) && TrimmedAt(s[a..b], i, j) && i < j && t == s[a..b][i..j];
    }
    if IsToken(s, t) {
      var a, b, i, j :| Run(s, a, b) && TrimmedAt(s[a..b], i, j) && i < j && t == s[a..b][i..j];
      TrimExact(s[a..b], i, j);
    }
  }

  /** Two maximal stretches that meet are the same. */
  lemma RunsAgree(s: string, a: int, b: int, i: int, j: int, k: int)
    requires Run(s, a, b) && Run(s, i, j) && a <= k < b && i <= k < j
    ensures a == i && b == j
  {
  }

  /** The next token after p, when only commas lie between, is the only one that ends after p and
      no later than itself. */
  lemma NextToken(s: string, p: int, i: int, j: int)
    requires 0 <= p <= i && Run(s, i, j)
    requires p == 0 || p == |s| || s[p] == ','
    requires forall k :: p <= k < i ==> s[k] == ','
    ensures TokensUpTo(s, j) == TokensUpTo(s, p) + (if Trim(s[i..j]) == "" then {} else {Trim(s[i..j])})
  {
    forall a, b | Run(s, a, b) && b <= j ensures b <= p || (a == i && b == j) {
      if b > p {
        assert s[b - 1] != ',';
        RunsAgree(s, a, b, i, j, b - 1);
      }
    }
    forall t | t in TokensUpTo(s, p) ensures t in TokensUpTo(s, j) {
      var a, b :| 0 <= a < p + 1 && 0 <= b < p + 1 && Run(s, a, b) && Trim(s[a..b]) != "" && Trim(s[a..b]) == t;
      assert a < j + 1 && b < j + 1;
    }
  }

  lemma NoMoreTokens(s: string, p: int)
    requires 0 <= p <= |s| && forall k :: p <= k < |s| ==> s[k] == ','
    ensures Tokens(s) == TokensUpTo(s, p)
  {
    forall a, b | Run(s, a, b) ensures a < b <= p {
      assert s[b - 1] != ',';
    }
  }

  lemma TokenHasNoComma(s: string, t: string)
    requires t in Tokens(s)
    ensures ',' !in t && t != ""
  {
    var i, j :| 0 <= i < |s| + 1 && 0 <= j < |s| + 1 && Run(s, i, j) && Trim(s[i..j]) != "" && Trim(s[i..j]) == t;
    assert forall k :: 0 <= k < |s[i..j]| ==> s[i..j][k] == s[i + k];
    assert ',' !in s[i..j];
  }

  // ---- The order in which a set of strings is walked ----

  predicate Leq(a: string, b: string) {
    a == "" || (b != "" && (a[0] < b[0] || (a[0] == b[0] && Leq(a[1..], b[1..]))))
  }

  lemma {:induction false} LeqTotal(a: string, b: string)
    ensures Leq(a, b) || Leq(b, a)
    ensures Leq(a, b) && Leq(b, a) ==> a == b
    decreases |a|
  {
    if a != "" && b != "" {
      LeqTotal(a[1..], b[1..]);
      if a[0] == b[0] {
        assert a == [a[0]] + a[1..] && b == [b[0]] + b[1..];
      }
    }
  }

  lemma {:induction false} LeqTrans(a: string, b: string, c: string)
    requires Leq(a, b) && Leq(b, c)
    ensures Leq(a, c)
    decreases |a|
  {
    if a != "" && a[0] == b[0] && b[0] == c[0] { LeqTrans(a[1..], b[1..], c[1..]); }
  }

  predicate Least(s: set<string>, m: string) {
    m in s && forall x :: x in s ==> Leq(m, x)
  }

  lemma {:induction false} LeastExists(s: set<string>)
    requires s != {}
    ensures exists m :: Least(s, m)
    decreases |s|
  {
    var x :| x in s;
    LeqTotal(x, x);
    if s == {x} {
      assert Least(s, x);
    } else {
      var rest := s - {x};
      assert s == rest + {x};
      LeastExists(rest);
      var m :| Least(rest, m);
      LeqTotal(x, m);
      if Leq(m, x) {
        assert Least(s, m);
      } else {
        forall y | y in s ensures Leq(x, y) {
          if y != x { LeqTrans(x, m, y); }
        }
        assert Least(s, x);
      }
    }
  }

  lemma LeastUnique(s: set<string>, m: string, n: string)
    requires Least(s, m) && Least(s, n)
    ensures m == n
  {
    LeqTotal(m, n);
  }

  /** The elements of a set in increasing order. */
  ghost function Sorted(s: set<string>): seq<string>
    decreases |s|
  {
    if s == {} then []
    else
      LeastExists(s);
      var m :| Least(s, m);
      [m] + Sorted(s - {m})
  }

  lemma SortedStep(s: set<string>, m: string)
    requires Least(s, m)
    ensures Sorted(s) == [m] + Sorted(s - {m})
  {
    LeastExists(s);
    var n :| Least(s, n) && Sorted(s) == [n] + Sorted(s - {n});
    LeastUnique(s, m, n);
  }

  lemma {:induction false} SortedExact(s: set<string>)
    ensures |Sorted(s)| == |s| && forall x :: x in Sorted(s) <==> x in s
    decreases |s|
  {
    if s != {} {
      LeastExists(s);
      var m :| Least(s, m);
      SortedStep(s, m);
      SortedExact(s - {m});
    }
  }

  // ---- Components ----

  function NumberOf(kind: Kind): int {
    match kind
    case Topic => 0
    case Queue => 1
    case TempTopic => 2
    case TempQueue => 3
  }

  lemma NumberIsKind(kind: Kind)
    ensures KindOf(NumberOf(kind)) == Some(kind)
  {
  }

  predicate IsComposite(name: string) {
    ',' in name
  }

  /** createDestination with the type of an existing destination as the default. */
  function Component(kind: Kind, token: string): Destination {
    match CreateDestination(NumberOf(kind), token)
    case Some(d) => d
    case None => Destination(kind, token)
  }

  ghost function Components(kind: Kind, tokens: seq<string>): (r: seq<Destination>)
    ensures |r| == |tokens|
    ensures forall i :: 0 <= i < |r| ==> r[i] == Component(kind, tokens[i])
  {
    seq(|tokens|, i requires 0 <= i < |tokens| => Component(kind, tokens[i]))
  }

  /** The decomposition of a name: one destination per distinct trimmed non-empty token. */
  ghost function Decomposition(d: Destination): seq<Destination> {
    if IsComposite(d.name) then Components(d.kind, Sorted(Tokens(d.name))) else []
  }

  lemma StripKeepsOut(name: string, c: char)
    requires c !in name
    ensures c !in StripOptions(name)
  {
  }

  lemma ComponentName(kind: Kind, token: string)
    requires ',' !in token
    ensures ',' !in Component(kind, token).name && '?' !in Component(kind, token).name
  {
    NumberIsKind(kind);
    ParsedNameIsStripped(NumberOf(kind), token);
    hide FindFrom, StripOptions, Prefix;
    StripKeepsOut(token, ',');
    if Qualified(token, Queue) { StripKeepsOut(token[|Prefix(Queue)|..], ','); }
    if Qualified(token, Topic) { StripKeepsOut(token[|Prefix(Topic)|..], ','); }
    if Qualified(token, TempQueue) { StripKeepsOut(token[|Prefix(TempQueue)|..], ','); }
    if Qualified(token, TempTopic) { StripKeepsOut(token[|Prefix(TempTopic)|..], ','); }
  }

  /** Decomposition ends after one level: no component is composite. */
  lemma OneLevel(d: Destination, c: Destination)
    requires c in Decomposition(d)
    ensures !IsComposite(c.name) && Decomposition(c) == [] && '?' !in c.name
  {
    var tokens := Sorted(Tokens(d.name));
    SortedExact(Tokens(d.name));
    var i :| 0 <= i < |tokens| && c == Component(d.kind, tokens[i]);
    assert tokens[i] in tokens;
    TokenHasNoComma(d.name, tokens[i]);
    ComponentName(d.kind, tokens[i]);
  }

  /** One destination per distinct token, and each made from its token. */
  lemma OnePerToken(d: Destination)
    requires IsComposite(d.name)
    ensures |Decomposition(d)| == |Tokens(d.name)|
    ensures forall c :: c in Decomposition(d) <==> exists t :: IsToken(d.name, t) && c == Component(d.kind, t)
  {
    var tokens := Sorted(Tokens(d.name));
    SortedExact(Tokens(d.name));
    hide IsToken, Tokens, Component, Leq;
    forall t | IsToken(d.name, t) ensures Component(d.kind, t) in Decomposition(d) {
      TokensExact(d.name, t);
      assert t in tokens;
      var i :| 0 <= i < |tokens| && tokens[i] == t;
      assert Decomposition(d)[i] == Component(d.kind, t);
    }
    forall c | c in Decomposition(d) ensures exists t :: IsToken(d.name, t) && c == Component(d.kind, t) {
      var i :| 0 <= i < |tokens| && c == Decomposition(d)[i];
      assert tokens[i] in tokens;
      TokensExact(d.name, tokens[i]);
    }
  }

  /** Token t is token u, which has no prefix, qualified with the given type. */
  ghost predicate QualifiedTwin(kind: Kind, t: string, u: string) {
    t == Prefix(kind) + u && forall k :: !Qualified(u, k)
  }

  lemma QualifiedShape(text: string, kind: Kind)
    requires Qualified(text, kind)
    ensures |Prefix(kind)| <= |text| && text == Prefix(kind) + text[|Prefix(kind)|..]
  {
    assert OccursAt(text, Prefix(kind), 0);
  }

  /** A qualified token is the printed form of its component; another one is its own name. */
  lemma ComponentShape(kind: Kind, token: string)
    requires '?' !in token
    ensures var c := Component(kind, token);
      ToText(c) == token || (c == Destination(kind, token) && forall k :: !Qualified(token, k))
  {
    NumberIsKind(kind);
    StripExact(token);
    forall k | Qualified(token, k) ensures ToText(Component(kind, token)) == token {
      QualifiedShape(token, k);
      var name := token[|Prefix(k)|..];
      PrintThenParse(NumberOf(kind), Destination(k, name));
    }
  }

  /** Distinct tokens need not be distinct destinations.  They are the same one exactly when one
      of them is the other, itself without a prefix, qualified with the composite's own type. */
  lemma SameComponentExact(kind: Kind, t: string, u: string)
    requires '?' !in t && '?' !in u && t != u
    ensures Component(kind, t) == Component(kind, u) <==> QualifiedTwin(kind, t, u) || QualifiedTwin(kind, u, t)
  {
    ComponentShape(kind, t);
    ComponentShape(kind, u);
    if QualifiedTwin(kind, t, u) { TwinsAgree(kind, u); }
    if QualifiedTwin(kind, u, t) { TwinsAgree(kind, t); }
  }

  lemma TwinsAgree(kind: Kind, token: string)
    requires '?' !in token && forall k :: !Qualified(token, k)
    ensures Component(kind, Prefix(kind) + token) == Component(kind, token)
  {
    NumberIsKind(kind);
    PrintThenParse(NumberOf(kind), Destination(kind, token));
    StripExact(token);
  }

  /** So the decomposition of a stored name lists no destination twice exactly when its tokens
      hold no such pair. */
  lemma DuplicateFreeExact(d: Destination)
    requires IsComposite(d.name) && '?' !in d.name
    ensures NoDup(Decomposition(d)) <==>
      forall t, u :: t in Tokens(d.name) && u in Tokens(d.name) ==> !QualifiedTwin(d.kind, t, u)
  {
    var tokens, all := Sorted(Tokens(d.name)), Decomposition(d);
    SortedExact(Tokens(d.name));
    SortedNoDup(Tokens(d.name));
    hide Component, QualifiedTwin, Qualified, Tokens, Leq;
    forall i, j | 0 <= i < j < |tokens|
      ensures all[i] == all[j] <==> QualifiedTwin(d.kind, tokens[i], tokens[j]) || QualifiedTwin(d.kind, tokens[j], tokens[i])
    {
      assert tokens[i] in tokens && tokens[j] in tokens;
      TokenFrom(d.name, tokens[i], '?');
      TokenFrom(d.name, tokens[j], '?');
      SameComponentExact(d.kind, tokens[i], tokens[j]);
    }
    forall t, u | t in Tokens(d.name) && u in Tokens(d.name) && QualifiedTwin(d.kind, t, u) ensures !NoDup(all) {
      TwinsDiffer(d.kind, t, u);
      assert t in tokens && u in tokens;
      var i :| 0 <= i < |tokens| && tokens[i] == t;
      var j :| 0 <= j < |tokens| && tokens[j] == u;
      assert all[i] == all[j];
    }
    if !NoDup(all) {
      var i, j :| 0 <= i < j < |all| && all[i] == all[j];
      assert tokens[i] in tokens && tokens[j] in tokens;
    }
  }

  /** The queue "a,queue://a" is twice the queue "a". */
  lemma DuplicateExample()
    ensures !NoDup(Decomposition(Destination(Queue, "a,queue://a")))
  {
    hide Tokens, Decomposition, Qualified, Prefix, QualifiedTwin, IsComposite, NoDup;
    var s := "a,queue://a";
    ExampleTokens(s);
    ExampleTwin(s);
    DuplicateFreeExact(Destination(Queue, s));
  }

  lemma ExampleTwin(s: string)
    requires s == "a,queue://a"
    ensures QualifiedTwin(Queue, Prefix(Queue) + "a", "a") && IsComposite(s) && '?' !in s
  {
    ShortIsUnqualified("a");
    assert s[1] == ',';
  }

  lemma ExampleTokens(s: string)
    requires s == "a,queue://a"
    ensures "a" in Tokens(s) && Prefix(Queue) + "a" in Tokens(s)
  {
    assert Run(s, 0, 1) && s[0..1] == "a" && Trim("a") == "a";
    var t := Prefix(Queue) + "a";
    assert Run(s, 2, |s|) && s[2..|s|] == t && Trim(t) == t;
  }

  lemma ShortIsUnqualified(token: string)
    requires |token| < 8
    ensures forall k :: !Qualified(token, k)
  {
    forall k ensures !Qualified(token, k) {
      assert |Prefix(k)| >= 8;
    }
  }

  lemma TwinsDiffer(kind: Kind, t: string, u: string)
    requires QualifiedTwin(kind, t, u)
    ensures t != u
  {
    assert |t| == |Prefix(kind)| + |u|;
  }

  lemma TokenFrom(s: string, t: string, c: char)
    requires t in Tokens(s) && c !in s
    ensures c !in t
  {
    var i, j :| 0 <= i < |s| + 1 && 0 <= j < |s| + 1 && Run(s, i, j) && Trim(s[i..j]) != "" && Trim(s[i..j]) == t;
    assert forall k :: 0 <= k < |s[i..j]| ==> s[i..j][k] == s[i + k];
  }

  lemma {:induction false} SortedNoDup(s: set<string>)
    ensures NoDup(Sorted(s))
    decreases |s|
  {
    if s != {} {
      LeastExists(s);
      var m :| Least(s, m);
      SortedStep(s, m);
      SortedNoDup(s - {m});
      SortedExact(s - {m});
      assert forall i :: 0 <= i < |Sorted(s - {m})| ==> Sorted(s - {m})[i] in Sorted(s - {m});
    }
  }

  class ActiveMQDestination {
    const kind: Kind
    var physicalName: string
    var compositeDestinations: seq<Destination>

    ghost function Value(): Destination
      reads this
    {
      Destination(kind, physicalName)
    }

    /** The stored name has no options, and what is kept is the decomposition of that name. */
    ghost predicate Valid()
      reads this
    {
      && '?' !in physicalName
      && (compositeDestinations != [] ==> compositeDestinations == Decomposition(Value()))
    }

    constructor (kind: Kind, name: string)
      ensures Valid() && Value() == Destination(kind, StripOptions(name))
    {
      this.kind := kind;
      physicalName := StripOptions(name);
      compositeDestinations := [];
      StripExact(name);
    }

    method SetPhysicalName(name: string)
      modifies this
      ensures Valid() && Value() == Destination(kind, StripOptions(name))
    {
      physicalName := name;
      var pos := Find(name, "?");
      if pos.Some? {
        physicalName := name[..pos.value];
      }
      compositeDestinations := [];
      StripExact(name);
    }

    method CopyDataStructure(src: ActiveMQDestination)
      requires src.Valid()
      modifies this
      ensures Valid() && physicalName == old(src.physicalName)
    {
      StripExact(src.physicalName);
      SetPhysicalName(src.physicalName);
    }

    /** The tokenizer loop: walks the name and collects the trimmed tokens. */
    method CollectTokens() returns (components: set<string>)
      ensures components == Tokens(physicalName)
      ensures forall t :: t in components <==> IsToken(physicalName, t)
    {
      var s := physicalName;
      components := {};
      var pos := 0;
      assert TokensUpTo(s, 0) == {};
      var start := SkipCommas(s, pos);
      while start < |s|
        invariant 0 <= pos <= start <= |s|
        invariant pos == 0 || pos == |s| || s[pos] == ','
        invariant forall k :: pos <= k < start ==> s[k] == ','
        invariant start == |s| || s[start] != ','
        invariant components == TokensUpTo(s, pos)
        decreases |s| - pos, |s| - start
      {
        var end := SkipToken(s, start);
        assert Run(s, start, end);
        NextToken(s, pos, start, end);
        var name := Trim(s[start..end]);
        if |name| != 0 {
          components := components + {name};
        }
        pos := end;
        start := SkipCommas(s, pos);
      }
      NoMoreTokens(s, pos);
      forall t ensures t in components <==> IsToken(s, t) {
        TokensExact(s, t);
      }
    }

    /** getCompositeDestinations: what is kept, or the decomposition, which is then kept. */
    method GetCompositeDestinations() returns (r: seq<Destination>)
      requires Valid()
      modifies this`compositeDestinations
      ensures Valid() && r == Decomposition(Value()) && compositeDestinations == r
    {
      if compositeDestinations != [] {
        return compositeDestinations;
      }
      if IsComposite(physicalName) {
        var tokens := CollectTokens();
        AddComponents(tokens);
      }
      return compositeDestinations;
    }

    /** Walks the set of tokens in order and appends a destination for each. */
    method AddComponents(tokens: set<string>)
      requires compositeDestinations == []
      modifies this`compositeDestinations
      ensures compositeDestinations == Components(kind, Sorted(tokens))
    {
      hide Leq, Component, Components;
      var left := tokens;
      ghost var done: seq<string> := [];
      assert compositeDestinations == Components(kind, done) by { ComponentsEmpty(kind); }
      while left != {}
        invariant Sorted(tokens) == done + Sorted(left)
        invariant compositeDestinations == Components(kind, done)
        decreases |left|
      {
        LeastExists(left);
        var t :| Least(left, t);
        SortedStep(left, t);
        ComponentsAppend(kind, done, t);
        compositeDestinations := compositeDestinations + [Component(kind, t)];
        assert done + ([t] + Sorted(left - {t})) == done + [t] + Sorted(left - {t});
        done := done + [t];
        left := left - {t};
      }
      assert done == Sorted(tokens);
    }
  }

  lemma ComponentsEmpty(kind: Kind)
    ensures Components(kind, []) == []
  {
  }

  lemma ComponentsAppend(kind: Kind, tokens: seq<string>, t: string)
    ensures Components(kind, tokens + [t]) == Components(kind, tokens) + [Component(kind, t)]
  {
    assert |tokens + [t]| == |tokens| + 1;
  }

  /** find_first_not_of(","). */
  method SkipCommas(s: string, pos: nat) returns (i: nat)
    requires pos <= |s|
    ensures pos <= i <= |s| && (i == |s| || s[i] != ',') && forall k :: pos <= k < i ==> s[k] == ','
  {
    i := pos;
    while i < |s| && s[i] == ','
      invariant pos <= i <= |s| && forall k :: pos <= k < i ==> s[k] == ','
    {
      i := i + 1;
    }
  }

  /** find_first_of(","). */
  method SkipToken(s: string, start: nat) returns (i: nat)
    requires start <= |s|
    ensures start <= i <= |s| && (i == |s| || s[i] == ',') && forall k :: start <= k < i ==> s[k] != ','
  {
    i := start;
    while i < |s| && s[i] != ','
      invariant start <= i <= |s| && forall k :: start <= k < i ==> s[k] != ','
    {
      i := i + 1;
    }
  }
}

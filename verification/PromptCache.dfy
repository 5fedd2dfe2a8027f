// The cache of rendered stable prompt segments and the encoding of its keys.
module PromptCache {
  import opened Models

  const UNIT_SEP: char := '\U{001F}'
  const RECORD_SEP: char := '\U{001E}'

  /** What the stable segment depends on besides the character files. */
  datatype Args = Args(facts: Option<seq<string>>, capabilities: bool)

  function Join(facts: seq<string>): string {
    if facts == [] then ""
    else if |facts| == 1 then facts[0]
    else facts[0] + [UNIT_SEP] + Join(facts[1..])
  }

  function FactsPart(facts: Option<seq<string>>): string {
    match facts case None => "<auto>" case Some(fs) => Join(fs)
  }

  /** The bytes that are hashed; the hash is taken as injective, so they stand for the key. */
  function Key(a: Args): string {
    FactsPart(a.facts) + [RECORD_SEP] + (if a.capabilities then "True" else "False")
  }

  type Renderer = Args -> string

  // ---------------------------------------------------------------- the loader as it runs

  function Cached(render: Renderer, cache: map<string, string>, a: Args): (string, map<string, string>) {
    if Key(a) in cache then (cache[Key(a)], cache) else (render(a), cache[Key(a) := render(a)])
  }

  /** The key, fed piece by piece. */
  method StableCacheKey(a: Args) returns (payload: string)
    ensures payload == Key(a)
  {
    payload := "";
    if a.facts.None? {
      payload := payload + "<auto>";
    } else {
      payload := payload + Join(a.facts.value);
    }
    payload := payload + ([RECORD_SEP] + (if a.capabilities then "True" else "False"));
  }

  class Loader {
    var cache: map<string, string>

    constructor ()
      ensures cache == map[]
    {
      cache := map[];
    }

    /** The stable segment for the arguments; character files, and so `render`, stay the same. */
    method Stable(render: Renderer, a: Args) returns (stable: string)
      modifies this
      ensures (stable, cache) == Cached(render, old(cache), a)
    {
      var key := StableCacheKey(a);
      if key in cache {
        stable := cache[key];
      } else {
        stable := render(a);
        cache := cache[key := stable];
      }
    }
  }

  function Run(render: Renderer, h: seq<Args>): map<string, string> {
    if h == [] then map[] else Cached(render, Run(render, h[..|h| - 1]), h[|h| - 1]).1
  }

  /** What call `i` returns. */
  function StableAt(render: Renderer, h: seq<Args>, i: nat): string
    requires i < |h|
  {
    Cached(render, Run(render, h[..i]), h[i]).0
  }

  // ---------------------------------------------------------------- the key encoding

  predicate SeparatorFree(facts: Option<seq<string>>) {
    facts.Some? ==> forall f :: f in facts.value ==> UNIT_SEP !in f
  }

  lemma NotShorter(a: string, b: string, x: string, y: string)
    requires UNIT_SEP !in b && a + [UNIT_SEP] + x == b + [UNIT_SEP] + y
    ensures |a| >= |b|
  {
    var s := b + [UNIT_SEP] + y;
    assert (a + [UNIT_SEP] + x)[|a|] == UNIT_SEP;
    assert forall k :: 0 <= k < |b| ==> s[k] == b[k] && b[k] != UNIT_SEP;
  }

  /** Splitting at the first separator. */
  lemma SplitUnique(a: string, b: string, x: string, y: string)
    requires UNIT_SEP !in a && UNIT_SEP !in b && a + [UNIT_SEP] + x == b + [UNIT_SEP] + y
    ensures a == b && x == y
  {
    var s := a + [UNIT_SEP] + x;
    NotShorter(a, b, x, y);
    NotShorter(b, a, y, x);
    assert a == s[..|a|] && b == s[..|b|];
    assert x == s[|a| + 1..] && y == s[|b| + 1..];
  }

  /** Joining separator-free facts only confuses the empty list with the list of one empty fact. */
  lemma {:induction false} JoinInjective(xs: seq<string>, ys: seq<string>)
    requires (forall f :: f in xs ==> UNIT_SEP !in f) && (forall f :: f in ys ==> UNIT_SEP !in f)
    requires xs != [] && ys != []
    ensures Join(xs) == Join(ys) <==> xs == ys
    decreases |xs|
  {
    assert xs[0] in xs && ys[0] in ys;
    if Join(xs) == Join(ys) {
      if |xs| == 1 && |ys| == 1 {
        assert xs == [xs[0]] && ys == [ys[0]];
      } else if |xs| > 1 && |ys| > 1 {
        SplitUnique(xs[0], ys[0], Join(xs[1..]), Join(ys[1..]));
        JoinInjective(xs[1..], ys[1..]);
        assert xs == [xs[0]] + xs[1..] && ys == [ys[0]] + ys[1..];
      } else {
        JoinHasSeparator(xs);
        JoinHasSeparator(ys);
        assert false;
      }
    }
  }

  lemma JoinHasSeparator(xs: seq<string>)
    requires xs != []
    ensures |xs| > 1 ==> UNIT_SEP in Join(xs)
    ensures |xs| == 1 ==> Join(xs) == xs[0]
  {
    if |xs| > 1 {
      assert Join(xs)[|xs[0]|] == UNIT_SEP;
    }
  }

  /** The two pairs of arguments a key cannot tell apart. */
  predicate Confused(x: Option<seq<string>>, y: Option<seq<string>>) {
    (x == Some([]) && y == Some([""])) || (x == None && y == Some(["<auto>"]))
  }

  lemma FactsPartInjective(x: Option<seq<string>>, y: Option<seq<string>>)
    requires SeparatorFree(x) && SeparatorFree(y)
    ensures FactsPart(x) == FactsPart(y) <==> x == y || Confused(x, y) || Confused(y, x)
  {
    if x.Some? && y.Some? && x.value != [] && y.value != [] {
      JoinInjective(x.value, y.value);
    } else if x.Some? && y.Some? {
      EmptyJoin(x.value);
      EmptyJoin(y.value);
    } else if x.Some? {
      AutoJoin(x.value);
    } else if y.Some? {
      AutoJoin(y.value);
    }
  }

  lemma EmptyJoin(xs: seq<string>)
    ensures Join(xs) == "" <==> xs == [] || xs == [""]
  {
    if |xs| == 1 {
      assert xs == [xs[0]];
    } else if |xs| > 1 {
      JoinHasSeparator(xs);
    }
  }

  lemma AutoJoin(xs: seq<string>)
    requires forall f :: f in xs ==> UNIT_SEP !in f
    ensures Join(xs) == "<auto>" <==> xs == ["<auto>"]
  {
    if xs != [] {
      JoinInjective(xs, ["<auto>"]);
    }
  }

  lemma SuffixUnique(s: string, t: string, p: bool, q: bool)
    requires s + [RECORD_SEP] + (if p then "True" else "False") == t + [RECORD_SEP] + (if q then "True" else "False")
    ensures s == t && p == q
  {
    var u := s + [RECORD_SEP] + (if p then "True" else "False");
    assert u[|u| - 2] == if p then 'u' else 's';
    assert u[|u| - 2] == if q then 'u' else 's';
    assert s == u[..|s|] && t == u[..|t|];
  }

  /** For facts without the unit separator two keys are equal exactly for equal arguments and for the two
      confused pairs. Empty facts and the record separator inside facts are harmless otherwise. */
  lemma KeyInjective(a: Args, b: Args)
    requires SeparatorFree(a.facts) && SeparatorFree(b.facts)
    ensures Key(a) == Key(b) <==>
            a.capabilities == b.capabilities && (a.facts == b.facts || Confused(a.facts, b.facts) || Confused(b.facts, a.facts))
  {
    FactsPartInjective(a.facts, b.facts);
    if Key(a) == Key(b) {
      SuffixUnique(FactsPart(a.facts), FactsPart(b.facts), a.capabilities, b.capabilities);
    }
  }

  /** The text cut at every separator. */
  function Split(s: string): (pieces: seq<string>)
    ensures pieces != []
  {
    if s == "" then [""]
    else
      var rest := Split(s[1..]);
      if s[0] == UNIT_SEP then [""] + rest else [[s[0]] + rest[0]] + rest[1..]
  }

  /** The facts with each of them cut at its separators. */
  function Pieces(facts: seq<string>): seq<string> {
    if facts == [] then [] else Split(facts[0]) + Pieces(facts[1..])
  }

  function PiecesOf(facts: Option<seq<string>>): Option<seq<string>> {
    match facts case None => None case Some(fs) => Some(Pieces(fs))
  }

  lemma JoinHead(x: string, xs: seq<string>)
    ensures Join([x] + xs) == if xs == [] then x else x + [UNIT_SEP] + Join(xs)
  {
    assert ([x] + xs)[1..] == xs;
  }

  lemma SplitStep(s: string)
    requires s != ""
    ensures Join(Split(s)) == [s[0]] + Join(Split(s[1..]))
  {
    var rest := Split(s[1..]);
    if s[0] == UNIT_SEP {
      JoinHead("", rest);
    } else {
      var head, tail := rest[0], rest[1..];
      assert rest == [head] + tail;
      JoinHead(head, tail);
      JoinHead([s[0]] + head, tail);
    }
  }

  lemma {:induction false} JoinSplit(s: string)
    ensures Join(Split(s)) == s
  {
    if s != "" {
      SplitStep(s);
      JoinSplit(s[1..]);
    }
  }

  lemma {:induction false} SplitFree(s: string)
    ensures forall p :: p in Split(s) ==> UNIT_SEP !in p
  {
    if s != "" {
      SplitFree(s[1..]);
      assert Split(s[1..])[0] in Split(s[1..]);
    }
  }

  lemma {:induction false} JoinAppend(xs: seq<string>, ys: seq<string>)
    requires xs != [] && ys != []
    ensures Join(xs + ys) == Join(xs) + [UNIT_SEP] + Join(ys)
  {
    assert xs == [xs[0]] + xs[1..] && xs + ys == [xs[0]] + (xs[1..] + ys);
    JoinHead(xs[0], xs[1..] + ys);
    if |xs| == 1 {
      assert xs[1..] + ys == ys;
    } else {
      JoinAppend(xs[1..], ys);
    }
  }

  /** The key only sees the pieces. */
  lemma {:induction false} JoinPieces(facts: seq<string>)
    ensures Join(Pieces(facts)) == Join(facts)
    ensures Pieces(facts) == [] <==> facts == []
    ensures forall p :: p in Pieces(facts) ==> UNIT_SEP !in p
  {
    if facts != [] {
      JoinSplit(facts[0]);
      SplitFree(facts[0]);
      JoinPieces(facts[1..]);
      if |facts| == 1 {
        assert Pieces(facts) == Split(facts[0]);
      } else {
        JoinAppend(Split(facts[0]), Pieces(facts[1..]));
      }
    }
  }

  /** For all arguments: two keys are equal exactly when the pieces of the facts are, or are one of the two
      confused pairs. */
  lemma KeysEqualExactly(a: Args, b: Args)
    ensures Key(a) == Key(b) <==>
            a.capabilities == b.capabilities
            && (PiecesOf(a.facts) == PiecesOf(b.facts) || Confused(PiecesOf(a.facts), PiecesOf(b.facts))
                || Confused(PiecesOf(b.facts), PiecesOf(a.facts)))
  {
    SameKey(a);
    SameKey(b);
    KeyInjective(a.(facts := PiecesOf(a.facts)), b.(facts := PiecesOf(b.facts)));
  }

  lemma SameKey(a: Args)
    ensures SeparatorFree(PiecesOf(a.facts)) && Key(a.(facts := PiecesOf(a.facts))) == Key(a)
  {
    if a.facts.Some? {
      JoinPieces(a.facts.value);
    }
  }

  /** A separator inside a fact confuses one fact with two. */
  lemma SeparatorConfuses(x: string, y: string, c: bool)
    ensures Key(Args(Some([x + [UNIT_SEP] + y]), c)) == Key(Args(Some([x, y]), c))
  {
    assert Join([x, y]) == x + [UNIT_SEP] + Join([x, y][1..]) && [x, y][1..] == [y];
  }

  /** The separators themselves: facts are joined by U+001F, the flag follows U+001E. */
  lemma KeyExample()
    ensures Key(Args(Some(["a", "b"]), true)) == "a\U{001F}b\U{001E}True"
    ensures Key(Args(None, false)) == "<auto>\U{001E}False"
  {
    assert ["a", "b"][1..] == ["b"];
    assert Join(["a", "b"]) == "a" + [UNIT_SEP] + "b";
  }

  // ---------------------------------------------------------------- transparency

  /** The first call with the key of call `i`. */
  ghost predicate FirstWithKey(h: seq<Args>, i: nat, n: nat, key: string) {
    i < n <= |h| && Key(h[i]) == key && forall j :: 0 <= j < i ==> Key(h[j]) != key
  }

  /** A call adds its own key when it is new and leaves every other entry alone. */
  lemma CallStep(render: Renderer, h: seq<Args>, m: nat, key: string)
    requires m < |h|
    ensures var before, after := Run(render, h[..m]), Run(render, h[..m + 1]);
            && (key in after <==> key in before || Key(h[m]) == key)
            && (key in after ==> after[key] == if key in before then before[key] else render(h[m]))
  {
    assert h[..m + 1][..m] == h[..m];
  }

  /** Closed form: the cache holds, under each key used, the rendering of its first use. */
  lemma {:induction false} CacheClosedForm(render: Renderer, h: seq<Args>, n: nat, key: string)
    requires n <= |h|
    ensures key in Run(render, h[..n]) <==> exists i: nat :: FirstWithKey(h, i, n, key)
    ensures forall i: nat :: FirstWithKey(h, i, n, key) ==> key in Run(render, h[..n]) && Run(render, h[..n])[key] == render(h[i])
    decreases n
  {
    if n > 0 {
      var m := n - 1;
      CacheClosedForm(render, h, m, key);
      CallStep(render, h, m, key);
      if Key(h[m]) == key && key !in Run(render, h[..m]) {
        NoEarlierUse(h, m, key);
        assert FirstWithKey(h, m, n, key);
        assert forall i: nat :: FirstWithKey(h, i, n, key) ==> i == m;
      } else if key in Run(render, h[..m]) {
        var f: nat :| FirstWithKey(h, f, m, key);
        assert FirstWithKey(h, f, n, key);
        assert forall i: nat :: FirstWithKey(h, i, n, key) ==> i == f;
      } else {
        NoEarlierUse(h, m, key);
        assert forall j :: 0 <= j < n ==> Key(h[j]) != key;
      }
    }
  }

  lemma NoEarlierUse(h: seq<Args>, n: nat, key: string)
    requires n <= |h| && !exists i: nat :: FirstWithKey(h, i, n, key)
    ensures !exists j :: 0 <= j < n && Key(h[j]) == key
  {
    if j :| 0 <= j < n && Key(h[j]) == key {
      var i := FirstUse(h, n, key, j);
      assert false;
    }
  }

  lemma {:induction false} FirstUse(h: seq<Args>, n: nat, key: string, j: nat) returns (i: nat)
    requires j < n <= |h| && Key(h[j]) == key
    ensures FirstWithKey(h, i, n, key) && i <= j
    decreases j
  {
    if k: nat :| k < j && Key(h[k]) == key {
      i := FirstUse(h, n, key, k);
    } else {
      i := j;
    }
  }

  /** Two calls of the run share a key without sharing their arguments. */
  predicate Collides(h: seq<Args>, i: nat, j: nat) {
    i < j < |h| && Key(h[i]) == Key(h[j]) && h[i] != h[j]
  }

  /** A run without collisions is transparent: every call returns what a new rendering would. */
  lemma NoCollisionIsTransparent(render: Renderer, h: seq<Args>, n: nat)
    requires n < |h| && forall i: nat, j: nat :: !Collides(h, i, j)
    ensures StableAt(render, h, n) == render(h[n])
  {
    CacheClosedForm(render, h, n, Key(h[n]));
    if Key(h[n]) in Run(render, h[..n]) {
      var i: nat :| FirstWithKey(h, i, n, Key(h[n]));
      assert !Collides(h, i, n);
    }
  }

  /** A run with a collision is not: some renderer makes it return a stale segment. */
  lemma CollisionIsVisible(h: seq<Args>, i: nat, j: nat) returns (render: Renderer, n: nat)
    requires Collides(h, i, j)
    ensures n < |h| && StableAt(render, h, n) != render(h[n])
  {
    var key := Key(h[j]);
    var f := FirstUse(h, j, key, i);
    var first := h[f];
    render := (a: Args) => if a == first then "first" else "other";
    n := if h[i] != first then i else j;
    if n == i {
      var f' := FirstUse(h, i, key, f);
      assert f' == f;
    }
    CacheClosedForm(render, h, n, key);
    assert FirstWithKey(h, f, n, key);
  }

  /** Arguments that no key confuses: no separator, and neither of the two ambiguous lists. */
  predicate Plain(a: Args) {
    SeparatorFree(a.facts) && a.facts != Some([""]) && a.facts != Some(["<auto>"])
  }

  /** Every run over plain arguments is transparent. */
  lemma PlainRunsAreTransparent(render: Renderer, h: seq<Args>, n: nat)
    requires n < |h| && forall a :: a in h ==> Plain(a)
    ensures StableAt(render, h, n) == render(h[n])
  {
    forall i: nat, j: nat ensures !Collides(h, i, j) {
      if i < j < |h| {
        assert h[i] in h && h[j] in h;
        KeyInjective(h[i], h[j]);
      }
    }
    NoCollisionIsTransparent(render, h, n);
  }
}

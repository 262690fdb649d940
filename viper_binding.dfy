/** pflagx/viper.go: filling the flags the user did not set on the command
    line from viper's environment and configuration. */
module ViperBinding {
  import opened Wrappers
  import opened TextUtil
  import opened FlagValue
  import opened Pflag

  /** A value as decoded from a configuration file or read from the
      environment. A scalar (string, number, bool) carries the text fmt's %v
      gives it. */
  datatype Value =
    | Scalar(text: string)
    | Seq(items: seq<Value>)
    | Map(entries: map<string, Value>)

  /** fmt's %v of a value: a scalar's own text, a slice as "[a b c]", a map as
      "map[k1:v1 k2:v2]" with the keys in ascending order. */
  function Text(v: Value): string
  {
    match v
    case Scalar(t) => t
    case Seq(items) => "[" + Join(seq(|items|, i requires 0 <= i < |items| => Text(items[i])), " ") + "]"
    case Map(m) =>
      var keys := SortedSet(m.Keys);
      "map[" + Join(seq(|keys|, i requires 0 <= i < |keys| => keys[i] + ":" + Text(m[keys[i]])), " ") + "]"
  }

  /** The texts of the elements, position by position. */
  function Texts(items: seq<Value>): (r: seq<string>)
    ensures |r| == |items|
    ensures forall i :: 0 <= i < |items| ==> r[i] == Text(items[i])
  {
    seq(|items|, i requires 0 <= i < |items| => Text(items[i]))
  }

  /** What stringifySlice produces: the element texts joined by ",". */
  function SliceString(items: seq<Value>): string
  {
    Join(Texts(items), ",")
  }

  /** An order in which Go's runtime may iterate a map: every key exactly once. */
  ghost predicate IsKeyOrder(order: seq<string>, m: map<string, Value>)
  {
    |order| == |m| && Distinct(order) && forall k :: k in order <==> k in m
  }

  /** The iteration order the runtime picks for each map. Go leaves it
      unspecified (and randomises it), so it is a parameter of the model. */
  type MapIteration = iter: map<string, Value> -> seq<string> | forall m :: IsKeyOrder(iter(m), m)
    witness (m: map<string, Value>) => SortedSet(m.Keys)

  /** The "key=value" piece stringifyMap makes for one entry. */
  function Piece(m: map<string, Value>, k: string): string
    requires k in m
  {
    k + "=" + Text(m[k])
  }

  function Pieces(m: map<string, Value>, order: seq<string>): (r: seq<string>)
    requires forall k :: k in order ==> k in m
    ensures |r| == |order|
    ensures forall i :: 0 <= i < |order| ==> r[i] == Piece(m, order[i])
  {
    seq(|order|, i requires 0 <= i < |order| => Piece(m, order[i]))
  }

  /** What stringifyMap produces when the map is iterated in `order`. */
  function MapString(m: map<string, Value>, order: seq<string>): string
    requires forall k :: k in order ==> k in m
  {
    Join(Pieces(m, order), ",")
  }

  /** What stringify produces: the string a flag's Set is handed. */
  function StringForm(v: Value, iter: MapIteration): string
  {
    match v
    case Scalar(t) => t
    case Seq(items) => SliceString(items)
    case Map(m) => MapString(m, iter(m))
  }

  /** stringifySlice: fills a slice of n texts, then joins them with ",". */
  method StringifySlice(items: seq<Value>) returns (r: string)
    ensures r == Join(Texts(items), ",")
  {
    var n := |items|;
    var s := new string[n](_ => "");
    for i := 0 to n
      invariant forall j :: 0 <= j < i ==> s[j] == Text(items[j])
    {
      s[i] := Text(items[i]);
    }
    assert s[..] == Texts(items);
    r := Join(s[..], ",");
  }

  /** stringifyMap: appends one "key=value" piece per entry in iteration
      order, then joins them with ",". */
  method StringifyMap(m: map<string, Value>, iter: MapIteration) returns (r: string)
    ensures r == Join(Pieces(m, iter(m)), ",")
    ensures |Pieces(m, iter(m))| == |m|
  {
    var order := iter(m);
    var s: seq<string> := [];
    for i := 0 to |order|
      invariant |s| == i
      invariant forall j :: 0 <= j < i ==> s[j] == Piece(m, order[j])
    {
      s := s + [order[i] + "=" + Text(m[order[i]])];
    }
    assert s == Pieces(m, order);
    r := Join(s, ",");
  }

  /** stringify: dispatch on the shape of the value. */
  method Stringify(v: Value, iter: MapIteration) returns (r: string)
    ensures r == StringForm(v, iter)
    ensures v.Scalar? ==> r == v.text
  {
    match v
    case Map(m) => r := StringifyMap(m, iter);
    case Seq(items) => r := StringifySlice(items);
    case Scalar(t) => r := t;
  }

  /** The element texts come back from a comma split of the slice's string
      form as long as none of them holds a comma. */
  lemma SliceRoundTrip(items: seq<Value>)
    requires |items| >= 1
    requires forall i :: 0 <= i < |items| ==> ',' !in Text(items[i])
    ensures Split(SliceString(items), ',') == Texts(items)
  {
    SplitJoin(Texts(items), ',');
  }

  /** [foo, bar, 1] becomes "foo,bar,1". */
  lemma SliceExample()
    ensures SliceString([Scalar("foo"), Scalar("bar"), Scalar("1")]) == "foo,bar,1"
  {
    var texts := Texts([Scalar("foo"), Scalar("bar"), Scalar("1")]);
    assert texts == ["foo", "bar", "1"];
    assert texts[1..][1..] == ["1"];
    assert Join(texts[1..], ",") == "bar" + "," + "1";
  }

  /** An element holding a comma is split in two: the string form of a slice
      does not escape its separator. */
  lemma SliceCommaSplits()
    ensures Split(SliceString([Scalar("a,b")]), ',') == ["a", "b"]
  {
    assert Texts([Scalar("a,b")]) == ["a,b"];
    assert "a,b" == "a" + [','] + "b";
    SplitAfterPiece("a", "b", ',');
    SplitNoSep("b", ',');
  }

  /** The pieces come back from a comma split of the map's string form as
      long as no piece holds a comma. */
  lemma MapRoundTrip(m: map<string, Value>, iter: MapIteration)
    requires |m| >= 1
    requires forall k :: k in m ==> ',' !in Piece(m, k)
    ensures Split(MapString(m, iter(m)), ',') == Pieces(m, iter(m))
    ensures |Pieces(m, iter(m))| == |m|
  {
    SplitJoin(Pieces(m, iter(m)), ',');
  }

  /** f applied to every element, in order. */
  function MapAll<T, U>(f: T -> U, s: seq<T>): (r: seq<U>)
    ensures |r| == |s|
  {
    seq(|s|, i requires 0 <= i < |s| => f(s[i]))
  }

  /** Mapping around the element at position j, with and without it. */
  lemma MapAllAround<T, U>(f: T -> U, s: seq<T>, j: nat)
    requires j < |s|
    ensures MapAll(f, s) == MapAll(f, s[..j]) + [f(s[j])] + MapAll(f, s[j + 1..])
    ensures MapAll(f, s[..j] + s[j + 1..]) == MapAll(f, s[..j]) + MapAll(f, s[j + 1..])
  {
  }

  /** Removing the element at position j removes one occurrence of it. */
  lemma RemoveAt<T>(s: seq<T>, j: nat)
    requires j < |s|
    ensures multiset(s[..j] + s[j + 1..]) == multiset(s) - multiset{s[j]}
  {
    assert s == s[..j] + [s[j]] + s[j + 1..];
  }

  /** An element of a permutation of a non-empty sequence, and what is left
      of both once it is taken out. */
  lemma MatchFirst<T>(a: seq<T>, b: seq<T>) returns (j: nat)
    requires |a| > 0 && multiset(a) == multiset(b)
    ensures j < |b| && b[j] == a[0]
    ensures multiset(a[1..]) == multiset(b[..j] + b[j + 1..])
  {
    assert a[0] in multiset(b);
    j :| 0 <= j < |b| && b[j] == a[0];
    assert multiset(a[1..]) == multiset(a) - multiset{a[0]} by {
      assert a == [a[0]] + a[1..];
    }
    RemoveAt(b, j);
  }

  /** Putting one element back between two parts adds one occurrence of it. */
  lemma MultisetAround<U>(p: seq<U>, y: U, q: seq<U>)
    ensures multiset(p + [y] + q) == multiset(p + q) + multiset{y}
  {
  }

  /** Mapping a function over permutations of each other gives permutations
      of each other. */
  lemma {:induction false} MapAllPermutation<T, U>(f: T -> U, a: seq<T>, b: seq<T>)
    requires multiset(a) == multiset(b)
    ensures multiset(MapAll(f, a)) == multiset(MapAll(f, b))
    decreases |a|
  {
    if a == [] {
      assert b == [] by {
        assert |multiset(b)| == 0;
      }
    } else {
      var j := MatchFirst(a, b);
      var b' := b[..j] + b[j + 1..];
      var y := f(a[0]);
      MapAllPermutation(f, a[1..], b');
      assert multiset(MapAll(f, a)) == multiset(MapAll(f, a[1..])) + multiset{y} by {
        MapAllAround(f, a, 0);
        assert a[..0] == [] && a[..0] + a[1..] == a[1..];
        MultisetAround([], y, MapAll(f, a[1..]));
      }
      assert multiset(MapAll(f, b)) == multiset(MapAll(f, b')) + multiset{y} by {
        MapAllAround(f, b, j);
        MultisetAround(MapAll(f, b[..j]), y, MapAll(f, b[j + 1..]));
      }
    }
  }

  /** The pieces in a given order are the piece function mapped over it. */
  lemma PiecesAsMap(m: map<string, Value>, order: seq<string>)
    requires forall k :: k in order ==> k in m
    ensures Pieces(m, order) == MapAll((k: string) => if k in m then Piece(m, k) else "", order)
  {
  }

  /** Distinct sequences with the same elements are permutations of each other. */
  lemma DistinctPermutation(a: seq<string>, b: seq<string>)
    requires Distinct(a) && Distinct(b)
    requires forall x :: x in a <==> x in b
    ensures multiset(a) == multiset(b)
  {
    forall x ensures multiset(a)[x] == multiset(b)[x] {
      DistinctCount(a, x);
      DistinctCount(b, x);
      if x in a {
        assert x in multiset(a) && x in multiset(b);
      } else {
        assert x !in multiset(a) && x !in multiset(b);
      }
    }
  }

  /** stringifyMap yields the same pieces, one per entry, whatever order the
      runtime iterates the map in; only their order can differ. */
  lemma MapStringAnyOrder(m: map<string, Value>, iter1: MapIteration, iter2: MapIteration)
    ensures |Pieces(m, iter1(m))| == |m| == |Pieces(m, iter2(m))|
    ensures multiset(Pieces(m, iter1(m))) == multiset(Pieces(m, iter2(m)))
  {
    DistinctPermutation(iter1(m), iter2(m));
    PiecesAsMap(m, iter1(m));
    PiecesAsMap(m, iter2(m));
    MapAllPermutation((k: string) => if k in m then Piece(m, k) else "", iter1(m), iter2(m));
  }

  // ---------------------------------------------------------------------
  // Where values come from

  /** The outcome of ReadInConfig. */
  datatype ConfigFile =
      /** A decoded configuration tree, looked up by key (a dotted key reaches
          into nested maps). */
    | Loaded(get: string -> Option<Value>)
      /** viper.ConfigFileNotFoundError. */
    | NotFound
      /** Any other error (the file exists but cannot be decoded, ...). */
    | Unreadable(message: string)

  /** A viper instance as BindViper uses it: values set explicitly with Set,
      the environment prefix, the process environment and the configuration. */
  datatype Viper = Viper(overrides: map<string, Value>, envPrefix: string, env: map<string, string>, config: ConfigFile)

  /** The environment spelling of one character: upper case, with "-" and "."
      replaced by "_". */
  function EnvChar(c: char): char
  {
    var u := UpperChar(c);
    if u == '-' || u == '.' then '_' else u
  }

  function EnvSpelling(s: string): (r: string)
    ensures |r| == |s|
    ensures forall i :: 0 <= i < |s| ==> r[i] == EnvChar(s[i])
  {
    seq(|s|, i requires 0 <= i < |s| => EnvChar(s[i]))
  }

  /** The environment variable read for `key`: the prefix and "_" in front
      when a prefix is set, upper-cased, "-" and "." replaced by "_". */
  function EnvKey(prefix: string, key: string): string
  {
    EnvSpelling(if prefix != "" then prefix + "_" + key else key)
  }

  /** The value of the environment variable for `key`; an empty variable
      counts as unset. */
  function EnvValue(v: Viper, key: string): Option<Value>
  {
    var name := EnvKey(v.envPrefix, key);
    if name in v.env && v.env[name] != "" then Some(Scalar(v.env[name])) else None
  }

  /** viper.Get with automatic environment lookup: an explicitly set value,
      else the environment, else the configuration. */
  function Get(v: Viper, key: string): Option<Value>
  {
    if key in v.overrides then Some(v.overrides[key])
    else if EnvValue(v, key).Some? then EnvValue(v, key)
    else match v.config
      case Loaded(get) => get(key)
      case _ => None
  }

  /** The key with every "-" replaced by ".". */
  function Dotted(key: string): string
  {
    ReplaceChar(key, '-', '.')
  }

  /** lookupValue: the value under the key itself, else under its dotted
      form. A value is found exactly when one of the two keys has one, it is
      that key's value, and the key itself wins when both have one. */
  function LookupValue(v: Viper, key: string): (r: Option<Value>)
    ensures r.None? <==> Get(v, key).None? && Get(v, Dotted(key)).None?
    ensures r.Some? ==> r == Get(v, key) || r == Get(v, Dotted(key))
    ensures Get(v, key).Some? ==> r == Get(v, key)
  {
    var direct := Get(v, key);
    if direct.Some? then direct else Get(v, Dotted(key))
  }

  /** A key and its dotted form name the same environment variable. */
  lemma {:induction false} EnvKeyOfDotted(prefix: string, key: string)
    ensures EnvKey(prefix, Dotted(key)) == EnvKey(prefix, key)
  {
    var a := if prefix != "" then prefix + "_" + key else key;
    var b := if prefix != "" then prefix + "_" + Dotted(key) else Dotted(key);
    var n := |a| - |key|;
    assert |b| == |a|;
    forall i | 0 <= i < |a| ensures EnvChar(a[i]) == EnvChar(b[i]) {
      if i >= n {
        assert a[i] == key[i - n] && b[i] == Dotted(key)[i - n];
      } else {
        assert a[i] == b[i];
      }
    }
  }

  lemma EnvKeyExample()
    ensures EnvKey("snakes", "int-opt") == "SNAKES_INT_OPT"
  {
    var r := EnvKey("snakes", "int-opt");
    assert "snakes" + "_" + "int-opt" == "snakes_int-opt";
    forall i | 0 <= i < 14
      ensures r[i] == "SNAKES_INT_OPT"[i]
    {
    }
    assert r == "SNAKES_INT_OPT";
  }

  /** Where lookupValue finds a key: an explicitly set value first, then the
      environment, then the configuration under the key, then under its
      dotted form; a configuration that was not found contributes nothing. */
  lemma LookupPrecedence(v: Viper, key: string)
    ensures key in v.overrides ==> LookupValue(v, key) == Some(v.overrides[key])
    ensures key !in v.overrides && EnvValue(v, key).Some? ==> LookupValue(v, key) == EnvValue(v, key)
    ensures key !in v.overrides && Dotted(key) !in v.overrides && EnvValue(v, key).None? && v.config.Loaded? ==>
      LookupValue(v, key) == if v.config.get(key).Some? then v.config.get(key) else v.config.get(Dotted(key))
    ensures key !in v.overrides && Dotted(key) !in v.overrides && EnvValue(v, key).None? && !v.config.Loaded? ==>
      LookupValue(v, key).None?
  {
    EnvKeyOfDotted(v.envPrefix, key);
  }

  // ---------------------------------------------------------------------
  // Binding

  const BindErrorPrefix := "failed to set flag from env or config: "

  /** bindFlag on one flag: a flag changed on the command line is left alone;
      otherwise the value found for its name, if any, is handed to Set in its
      string form. */
  function BindOne(f: FlagState, v: Viper, iter: MapIteration): (FlagState, Option<string>)
  {
    if f.changed then (f, None)
    else match LookupValue(v, f.name)
      case None => (f, None)
      case Some(x) => SetFlag(f, StringForm(x, iter))
  }

  /** bindFlag as a function value, the step the binding pass repeats. */
  function BindStep(v: Viper, iter: MapIteration): FlagState -> (FlagState, Option<string>)
  {
    f => BindOne(f, v, iter)
  }

  /** The pass of bindFlags for a given per-flag step, over the flags in
      visiting order: each visit first checks the error so far and does
      nothing once there is one; a failing step's error is recorded with the
      prefix. */
  function FailFast(s: seq<FlagState>, step: FlagState -> (FlagState, Option<string>)): (r: (seq<FlagState>, Option<string>))
    ensures |r.0| == |s|
    decreases |s|
  {
    if s == [] then ([], None)
    else
      var prev := FailFast(s[..|s| - 1], step);
      var f := s[|s| - 1];
      if prev.1.Some? then (prev.0 + [f], prev.1)
      else
        var one := step(f);
        (prev.0 + [one.0], if one.1.Some? then Some(BindErrorPrefix + one.1.value) else None)
  }

  /** bindFlags: the pass with bindFlag as its step. */
  function BindAll(s: seq<FlagState>, v: Viper, iter: MapIteration): (seq<FlagState>, Option<string>)
  {
    FailFast(s, BindStep(v, iter))
  }

  /** BindViper: a configuration that cannot be read fails before any flag is
      visited; a missing one is no error. */
  function Bind(s: seq<FlagState>, v: Viper, iter: MapIteration): (seq<FlagState>, Option<string>)
  {
    if v.config.Unreadable? then (s, Some(v.config.message)) else BindAll(s, v, iter)
  }

  /** A configuration file that is not found is no error and binding goes
      ahead; any other read error is returned with every flag untouched. */
  lemma ConfigReadOutcome(s: seq<FlagState>, v: Viper, iter: MapIteration)
    ensures v.config.Unreadable? ==> Bind(s, v, iter) == (s, Some(v.config.message))
    ensures v.config.NotFound? ==> Bind(s, v, iter) == BindAll(s, v, iter)
  {
  }

  /** Visiting a flag and setting it went well for every flag before position j. */
  ghost predicate SetsBefore(s: seq<FlagState>, v: Viper, iter: MapIteration, j: nat)
    requires j <= |s|
  {
    forall k :: 0 <= k < j ==> BindOne(s[k], v, iter).1.None?
  }

  /** No step before position j fails. */
  ghost predicate StepsBefore(s: seq<FlagState>, step: FlagState -> (FlagState, Option<string>), j: nat)
    requires j <= |s|
  {
    forall k :: 0 <= k < j ==> step(s[k]).1.None?
  }

  /** Whether the first j flags all step without error depends on those
      flags only. */
  lemma StepsBeforePrefix(s: seq<FlagState>, n: nat, step: FlagState -> (FlagState, Option<string>))
    requires n <= |s|
    ensures forall j :: 0 <= j <= n ==> (StepsBefore(s[..n], step, j) <==> StepsBefore(s, step, j))
  {
    forall j | 0 <= j <= n
      ensures StepsBefore(s[..n], step, j) <==> StepsBefore(s, step, j)
    {
      assert forall k :: 0 <= k < j ==> s[..n][k] == s[k];
    }
  }

  /** The fail-fast pass, flag by flag, for any step: every flag up to and
      including the first failing one is stepped, every later one is
      untouched. */
  lemma {:induction false} FailFastStates(s: seq<FlagState>, step: FlagState -> (FlagState, Option<string>))
    ensures forall j :: 0 <= j < |s| ==>
      FailFast(s, step).0[j] == if StepsBefore(s, step, j) then step(s[j]).0 else s[j]
    decreases |s|
  {
    if s != [] {
      var n := |s| - 1;
      var init := s[..n];
      FailFastStates(init, step);
      FailFastError(init, step);
      StepsBeforePrefix(s, n, step);
      var r := FailFast(s, step);
      var prev := FailFast(init, step);
      forall j | 0 <= j < |s|
        ensures r.0[j] == if StepsBefore(s, step, j) then step(s[j]).0 else s[j]
      {
        if j < n {
          assert r.0[j] == prev.0[j] && init[j] == s[j];
        }
      }
    }
  }

  /** The error of the fail-fast pass: none exactly when no step fails, and
      otherwise the first failure with the prefix. */
  lemma {:induction false} FailFastError(s: seq<FlagState>, step: FlagState -> (FlagState, Option<string>))
    ensures FailFast(s, step).1.None? <==> StepsBefore(s, step, |s|)
    ensures FailFast(s, step).1.Some? ==>
      exists k :: 0 <= k < |s| && StepsBefore(s, step, k) && step(s[k]).1.Some? &&
        FailFast(s, step).1 == Some(BindErrorPrefix + step(s[k]).1.value)
    decreases |s|
  {
    if s != [] {
      var n := |s| - 1;
      var init := s[..n];
      FailFastError(init, step);
      StepsBeforePrefix(s, n, step);
      var r := FailFast(s, step);
      var prev := FailFast(init, step);
      if r.1.Some? && prev.1.Some? {
        var k :| 0 <= k < n && StepsBefore(init, step, k) && step(init[k]).1.Some? &&
          prev.1 == Some(BindErrorPrefix + step(init[k]).1.value);
        assert init[k] == s[k];
      }
    }
  }

  /** bindFlags, flag by flag: every flag up to and including the first one
      whose Set fails is bound as bindFlag binds it alone; every flag after it
      is untouched; the error is the first failure with the prefix. */
  lemma BindAllPointwise(s: seq<FlagState>, v: Viper, iter: MapIteration)
    ensures forall j :: 0 <= j < |s| ==>
      BindAll(s, v, iter).0[j] == if SetsBefore(s, v, iter, j) then BindOne(s[j], v, iter).0 else s[j]
    ensures BindAll(s, v, iter).1.None? <==> SetsBefore(s, v, iter, |s|)
    ensures BindAll(s, v, iter).1.Some? ==>
      exists k :: 0 <= k < |s| && SetsBefore(s, v, iter, k) && BindOne(s[k], v, iter).1.Some? &&
        BindAll(s, v, iter).1 == Some(BindErrorPrefix + BindOne(s[k], v, iter).1.value)
  {
    var step := BindStep(v, iter);
    FailFastStates(s, step);
    FailFastError(s, step);
    forall j | 0 <= j <= |s|
      ensures StepsBefore(s, step, j) <==> SetsBefore(s, v, iter, j)
    {
    }
  }

  /** A flag set on the command line keeps its value whatever the
      environment or configuration hold. */
  lemma BindKeepsChanged(s: seq<FlagState>, v: Viper, iter: MapIteration, j: nat)
    requires j < |s| && s[j].changed
    ensures Bind(s, v, iter).0[j] == s[j]
  {
    BindAllPointwise(s, v, iter);
  }

  /** A flag for which neither the name nor its dotted form has a value keeps
      its default, and does not cause an error. */
  lemma BindAbsentKeepsDefault(s: seq<FlagState>, v: Viper, iter: MapIteration, j: nat)
    requires j < |s|
    requires Get(v, s[j].name).None? && Get(v, Dotted(s[j].name)).None?
    ensures Bind(s, v, iter).0[j] == s[j]
    ensures BindOne(s[j], v, iter).1.None?
  {
    BindAllPointwise(s, v, iter);
  }

  /** Fail-fast: once a flag's Set fails, no later flag is visited. */
  lemma BindStopsAtFailure(s: seq<FlagState>, v: Viper, iter: MapIteration, k: nat, j: nat)
    requires k < j < |s|
    requires BindOne(s[k], v, iter).1.Some?
    ensures Bind(s, v, iter).0[j] == s[j]
    ensures Bind(s, v, iter).1.Some?
  {
    BindAllPointwise(s, v, iter);
  }

  /** When every flag binds without error, each flag ends up exactly as
      binding it alone leaves it. */
  lemma BindAllSucceeds(s: seq<FlagState>, v: Viper, iter: MapIteration)
    requires v.config.Unreadable? || SetsBefore(s, v, iter, |s|)
    ensures !v.config.Unreadable? ==> Bind(s, v, iter).1.None?
    ensures !v.config.Unreadable? ==> forall j :: 0 <= j < |s| ==> Bind(s, v, iter).0[j] == BindOne(s[j], v, iter).0
  {
    BindAllPointwise(s, v, iter);
  }

  // ---------------------------------------------------------------------
  // The imperative binding pass

  /** bindFlag(flags, f, v) for the flag at position i. */
  method BindFlag(fs: FlagSet, i: nat, v: Viper, iter: MapIteration) returns (err: Option<string>)
    requires fs.Valid() && i < |fs.flags|
    modifies fs.flags
    ensures fs.States() == old(fs.States())[i := BindOne(old(fs.States())[i], v, iter).0]
    ensures err == BindOne(old(fs.States())[i], v, iter).1
  {
    var f := fs.flags[i];
    if f.changed {
      return None;
    }
    // v.BindEnv(f.Name) adds nothing here: Get already reads the environment
    // for every key.
    var val := LookupValue(v, f.name);
    if val.None? {
      return None;
    }
    var s := Stringify(val.value, iter);
    err := fs.Set(f.name, s);
  }

  /** One more flag visited by bindFlags. */
  lemma BindAllSnoc(s: seq<FlagState>, i: nat, v: Viper, iter: MapIteration)
    requires i < |s|
    ensures BindAll(s[..i + 1], v, iter).1.None? ==> BindAll(s[..i], v, iter).1.None?
    ensures BindAll(s[..i], v, iter).1.Some? ==>
      BindAll(s[..i + 1], v, iter) == (BindAll(s[..i], v, iter).0 + [s[i]], BindAll(s[..i], v, iter).1)
    ensures BindAll(s[..i], v, iter).1.None? ==>
      BindAll(s[..i + 1], v, iter).0 == BindAll(s[..i], v, iter).0 + [BindOne(s[i], v, iter).0] &&
      BindAll(s[..i + 1], v, iter).1 ==
        if BindOne(s[i], v, iter).1.Some? then Some(BindErrorPrefix + BindOne(s[i], v, iter).1.value) else None
  {
    assert s[..i + 1][..i] == s[..i];
  }

  /** One visit of bindFlags, on the states of the whole flag set: the first
      i flags are bound, the rest untouched, before and after. */
  lemma VisitStep(s0: seq<FlagState>, i: nat, v: Viper, iter: MapIteration,
                  states: seq<FlagState>, err: Option<string>, states': seq<FlagState>, err': Option<string>)
    requires i < |s0|
    requires states == BindAll(s0[..i], v, iter).0 + s0[i..] && err == BindAll(s0[..i], v, iter).1
    requires err.Some? ==> err' == err && states' == states
    requires err.None? ==>
      var step := BindOne(states[i], v, iter);
      states' == states[i := step.0] &&
      err' == if step.1.Some? then Some(BindErrorPrefix + step.1.value) else None
    ensures states' == BindAll(s0[..i + 1], v, iter).0 + s0[i + 1..] && err' == BindAll(s0[..i + 1], v, iter).1
  {
    var done := BindAll(s0[..i], v, iter).0;
    BindAllSnoc(s0, i, v, iter);
    assert s0[i..][1..] == s0[i + 1..];
    if err.Some? {
      SpliceAt(done, s0[i..], s0[i]);
    } else {
      SpliceAt(done, s0[i..], BindOne(s0[i], v, iter).0);
    }
  }

  /** Replacing the first element after a prefix. */
  lemma SpliceAt<T>(done: seq<T>, rest: seq<T>, y: T)
    requires |rest| > 0
    ensures (done + rest)[|done|] == rest[0]
    ensures (done + rest)[|done| := y] == (done + [y]) + rest[1..]
    ensures done + rest == (done + [rest[0]]) + rest[1..]
  {
    assert rest == [rest[0]] + rest[1..];
  }

  /** The function bindFlags hands to VisitAll, applied to the flag at
      position i with the error so far. */
  method VisitFlag(fs: FlagSet, i: nat, v: Viper, iter: MapIteration, err: Option<string>) returns (err': Option<string>)
    requires fs.Valid() && i < |fs.flags|
    modifies fs.flags
    ensures fs.Valid()
    ensures err.Some? ==> err' == err && fs.States() == old(fs.States())
    ensures err.None? ==>
      var step := BindOne(old(fs.States())[i], v, iter);
      fs.States() == old(fs.States())[i := step.0] &&
      err' == if step.1.Some? then Some(BindErrorPrefix + step.1.value) else None
  {
    if err.Some? {
      return err;
    }
    var failure := BindFlag(fs, i, v, iter);
    err' := if failure.Some? then Some(BindErrorPrefix + failure.value) else None;
  }

  /** bindFlags: VisitAll over the flags, stopping at nothing but doing
      nothing once an error is recorded. */
  method BindFlags(fs: FlagSet, v: Viper, iter: MapIteration) returns (err: Option<string>)
    requires fs.Valid()
    modifies fs.flags
    ensures fs.Valid()
    ensures (fs.States(), err) == BindAll(old(fs.States()), v, iter)
  {
    ghost var s0 := fs.States();
    err := None;
    for i := 0 to |fs.flags|
      invariant fs.Valid()
      invariant |s0| == |fs.flags|
      invariant fs.States() == BindAll(s0[..i], v, iter).0 + s0[i..]
      invariant err == BindAll(s0[..i], v, iter).1
    {
      ghost var states := fs.States();
      var err' := VisitFlag(fs, i, v, iter, err);
      VisitStep(s0, i, v, iter, states, err, fs.States(), err');
      err := err';
    }
    assert s0[..|s0|] == s0;
    assert fs.States() == BindAll(s0, v, iter).0 by {
      assert s0[|s0|..] == [];
    }
  }

  /** BindViper(fs, v). */
  method BindViper(fs: FlagSet, v: Viper, iter: MapIteration) returns (err: Option<string>)
    requires fs.Valid()
    modifies fs.flags
    ensures fs.Valid()
    ensures (fs.States(), err) == Bind(old(fs.States()), v, iter)
  {
    if v.config.Unreadable? {
      return Some(v.config.message);
    }
    // AutomaticEnv and the "-"/"." to "_" replacer are what Get and EnvKey
    // already model.
    err := BindFlags(fs, v, iter);
  }
}

/** The two configuration helpers of the server bundle configuration, `ensureArray` and `when`,
    and the `plugins` array literal that spreads their results. */
module ConfigHelpers {
  import opened JsValue
  import opened Results

  /** `ensureArray(config)`, evaluated through JavaScript's `&&` and `||` in the order the source
      combines them: a falsy input short-circuits to the empty array, an array passes through
      unchanged, and any other value is wrapped in a one-element array. */
  function EnsureArray(config: Value): (r: Value)
    ensures r.Arr?
    ensures !Truthy(config) ==> r.elems == []
    ensures config.Arr? ==> r == config
    ensures Truthy(config) && !config.Arr? ==> r.elems == [config]
  {
    Or(And(config, if config.Arr? then config else Arr([config])), Arr([]))
  }

  /** `when(condition, config, negativeConfig)`; an omitted `negativeConfig` is `Undefined`. */
  function When(condition: Value, config: Value, negativeConfig: Value): (r: Value)
    ensures r.Arr?
    ensures Truthy(condition) && !Truthy(config) ==> r.elems == []
    ensures Truthy(condition) && config.Arr? ==> r == config
    ensures Truthy(condition) && Truthy(config) && !config.Arr? ==> r.elems == [config]
    ensures !Truthy(condition) && !Truthy(negativeConfig) ==> r.elems == []
    ensures !Truthy(condition) && negativeConfig.Arr? ==> r == negativeConfig
    ensures !Truthy(condition) && Truthy(negativeConfig) && !negativeConfig.Arr? ==> r.elems == [negativeConfig]
  {
    if Truthy(condition) then EnsureArray(config) else EnsureArray(negativeConfig)
  }

  /** `when(false-ish, config)` with the negative branch left out spreads to nothing. */
  lemma WhenWithoutNegativeIsEmpty(condition: Value, config: Value)
    requires !Truthy(condition)
    ensures When(condition, config, Undefined) == Arr([])
  {
  }

  /** The error JavaScript raises when `...v` meets a value that is not iterable. */
  datatype TypeError = NotIterable(v: Value)

  /** Arrays and strings are the iterable values of this model. */
  predicate Iterable(v: Value) {
    v.Arr? || v.Str?
  }

  /** The values `...v` contributes: an array's elements, or a string's characters. */
  function SpreadValues(v: Value): (r: seq<Value>)
    requires Iterable(v)
    ensures v.Arr? ==> r == v.elems
    ensures v.Str? ==> |r| == |v.s| && forall i :: 0 <= i < |r| ==> r[i] == Str([v.s[i]])
  {
    if v.Arr? then v.elems else seq(|v.s|, i requires 0 <= i < |v.s| => Str([v.s[i]]))
  }

  /** One position of an array literal: `...v` or a plain element `v`. */
  datatype Item = Spread(v: Value) | Element(v: Value)

  /** What one item adds to the array under construction, or the error it throws. */
  function ItemValues(item: Item): Result<seq<Value>, TypeError> {
    match item
    case Element(v) => Ok([v])
    case Spread(v) => if Iterable(v) then Ok(SpreadValues(v)) else Err(NotIterable(v))
  }

  /** Evaluates an array literal left to right; the first spread of a non-iterable throws. */
  function ArrayLiteral(items: seq<Item>): Result<seq<Value>, TypeError> {
    if items == [] then Ok([])
    else
      var init := ArrayLiteral(items[..|items| - 1]);
      var last := ItemValues(items[|items| - 1]);
      if init.Err? then init
      else if last.Err? then Err(last.error)
      else Ok(init.value + last.value)
  }

  /** An array literal throws exactly when it spreads a value that is not iterable. */
  lemma {:induction false} ArrayLiteralThrowsExactly(items: seq<Item>)
    ensures ArrayLiteral(items).Ok? <==> forall i :: 0 <= i < |items| ==> items[i].Element? || Iterable(items[i].v)
    ensures ArrayLiteral(items).Err? ==>
              exists i :: && 0 <= i < |items|
                          && items[i].Spread? && !Iterable(items[i].v)
                          && ArrayLiteral(items).error == NotIterable(items[i].v)
                          && forall j :: 0 <= j < i ==> items[j].Element? || Iterable(items[j].v)
  {
    if items != [] {
      var init := items[..|items| - 1];
      ArrayLiteralThrowsExactly(init);
      assert forall i :: 0 <= i < |init| ==> init[i] == items[i];
    }
  }

  /** A literal without spreads evaluates to its elements, in order. */
  lemma {:induction false} ArrayLiteralOfElements(items: seq<Item>)
    requires forall i :: 0 <= i < |items| ==> items[i].Element?
    ensures ArrayLiteral(items).Ok?
    ensures |ArrayLiteral(items).value| == |items|
    ensures forall i :: 0 <= i < |items| ==> ArrayLiteral(items).value[i] == items[i].v
  {
    if items != [] {
      var init := items[..|items| - 1];
      ArrayLiteralOfElements(init);
    }
  }

  /** Evaluating two literals one after the other is evaluating their concatenation. */
  lemma {:induction false} ArrayLiteralConcat(a: seq<Item>, b: seq<Item>)
    ensures ArrayLiteral(a + b).Ok? <==> ArrayLiteral(a).Ok? && ArrayLiteral(b).Ok?
    ensures ArrayLiteral(a + b).Ok? ==> ArrayLiteral(a + b).value == ArrayLiteral(a).value + ArrayLiteral(b).value
  {
    if b == [] {
      assert a + b == a;
    } else {
      var init, last := b[..|b| - 1], b[|b| - 1];
      var ab := a + b;
      assert ab[..|ab| - 1] == a + init;
      assert ab[|ab| - 1] == last;
      ArrayLiteralConcat(a, init);
      var left, right, more := ArrayLiteral(a + init), ArrayLiteral(init), ItemValues(last);
      if left.Ok? && more.Ok? {
        assert left.value + more.value == ArrayLiteral(a).value + (right.value + more.value);
      }
    }
  }

  lemma SpreadOne(v: Value)
    requires Iterable(v)
    ensures ArrayLiteral([Spread(v)]) == Ok(SpreadValues(v))
  {
    assert [Spread(v)][..0] == [];
    assert [] + SpreadValues(v) == SpreadValues(v);
  }

  /** Spreading `when(condition, plugin)` contributes the plugin alone, or nothing. */
  lemma SpreadWhenPlugin(condition: Value, plugin: string)
    ensures ArrayLiteral([Spread(When(condition, Obj(plugin), Undefined))]).Ok?
    ensures ArrayLiteral([Spread(When(condition, Obj(plugin), Undefined))]).value
            == if Truthy(condition) then [Obj(plugin)] else []
  {
    SpreadOne(When(condition, Obj(plugin), Undefined));
  }

  /** Spreading the result of `when` never throws, and adds exactly the chosen configuration's entries. */
  lemma SpreadWhenNeverFails(condition: Value, config: Value, negativeConfig: Value)
    ensures var chosen := if Truthy(condition) then config else negativeConfig;
            var r := ArrayLiteral([Spread(When(condition, config, negativeConfig))]);
            && r.Ok?
            && (!Truthy(chosen) ==> r.value == [])
            && (chosen.Arr? ==> r.value == chosen.elems)
            && (Truthy(chosen) && !chosen.Arr? ==> r.value == [chosen])
  {
    var w := When(condition, config, negativeConfig);
    assert [Spread(w)][..0] == [];
  }

  /** Spreading a bare plugin object, without `when`, throws: the reason the helpers exist. */
  lemma SpreadBarePluginThrows(plugin: string)
    ensures ArrayLiteral([Spread(Obj(plugin))]) == Err(NotIterable(Obj(plugin)))
  {
    assert [Spread(Obj(plugin))][..0] == [];
  }

  /** The environment flags the configuration function destructures; absent ones are `Undefined`. */
  datatype Env = Env(production: Value, server: Value, extractCss: Value, analyze: Value, karma: Value)

  /** The `plugins` array literal, with each plugin instance reduced to its class name. Every
      spread in it spreads the result of `when`, so every spread value is an array. */
  function PluginItems(env: Env): (r: seq<Item>)
    ensures |r| == 9
    ensures forall i :: 0 <= i < |r| && r[i].Spread? ==> r[i].v.Arr?
  {
    [ Spread(When(Not(env.karma), Obj("DuplicatePackageCheckerPlugin"), Undefined)),
      Element(Obj("AureliaPlugin")),
      Element(Obj("ProvidePlugin(jquery)")),
      Element(Obj("ProvidePlugin(bluebird)")),
      Element(Obj("CopyWebpackPlugin(favicon, sitemap, preboot)")),
      Element(Obj("HtmlWebpackPlugin")),
      Spread(When(env.extractCss, Obj("MiniCssExtractPlugin"), Undefined)),
      Spread(When(Or(env.production, env.server), Obj("CopyWebpackPlugin(static)"), Undefined)),
      Spread(When(env.analyze, Obj("BundleAnalyzerPlugin"), Undefined)) ]
  }

  /** The five plugins the list always holds. */
  const FixedPlugins: seq<Value> := [ Obj("AureliaPlugin"), Obj("ProvidePlugin(jquery)"),
    Obj("ProvidePlugin(bluebird)"), Obj("CopyWebpackPlugin(favicon, sitemap, preboot)"), Obj("HtmlWebpackPlugin") ]

  lemma PluginItemsShape(env: Env)
    ensures PluginItems(env)
            == [Spread(When(Not(env.karma), Obj("DuplicatePackageCheckerPlugin"), Undefined))]
               + PluginItems(env)[1..6]
               + ([Spread(When(env.extractCss, Obj("MiniCssExtractPlugin"), Undefined))]
                  + [Spread(When(Or(env.production, env.server), Obj("CopyWebpackPlugin(static)"), Undefined))]
                  + [Spread(When(env.analyze, Obj("BundleAnalyzerPlugin"), Undefined))])
    ensures ArrayLiteral(PluginItems(env)[1..6]) == Ok(FixedPlugins)
  {
    var fixed := PluginItems(env)[1..6];
    assert fixed == [ Element(FixedPlugins[0]), Element(FixedPlugins[1]), Element(FixedPlugins[2]),
                      Element(FixedPlugins[3]), Element(FixedPlugins[4]) ];
    assert forall i :: 0 <= i < |fixed| ==> fixed[i].Element? && fixed[i].v == FixedPlugins[i];
    ArrayLiteralOfElements(fixed);
    var r := ArrayLiteral(fixed);
    assert r.Ok? && |r.value| == |FixedPlugins|;
    assert forall i :: 0 <= i < |FixedPlugins| ==> r.value[i] == FixedPlugins[i];
    assert r.value == FixedPlugins;
  }

  /** The entries a conditional plugin contributes: the plugin when `b` holds, nothing otherwise. */
  function Opt(b: bool, v: Value): seq<Value> {
    if b then [v] else []
  }

  lemma SpreadThree(b: Value, c: Value, d: Value)
    requires b.Arr? && c.Arr? && d.Arr?
    ensures ArrayLiteral([Spread(b)] + [Spread(c)] + [Spread(d)]) == Ok(b.elems + c.elems + d.elems)
  {
    SpreadOne(b);
    SpreadOne(c);
    SpreadOne(d);
    ArrayLiteralConcat([Spread(b)], [Spread(c)]);
    ArrayLiteralConcat([Spread(b)] + [Spread(c)], [Spread(d)]);
  }

  lemma SpreadThenFixed(a: Value, fixed: seq<Item>)
    requires a.Arr? && ArrayLiteral(fixed) == Ok(FixedPlugins)
    ensures ArrayLiteral([Spread(a)] + fixed) == Ok(a.elems + FixedPlugins)
  {
    SpreadOne(a);
    ArrayLiteralConcat([Spread(a)], fixed);
  }

  /** The shape of the `plugins` literal: a spread, the fixed plugins, and three more spreads. */
  lemma PluginLiteral(a: Value, fixed: seq<Item>, b: Value, c: Value, d: Value)
    requires a.Arr? && b.Arr? && c.Arr? && d.Arr?
    requires ArrayLiteral(fixed) == Ok(FixedPlugins)
    ensures ArrayLiteral([Spread(a)] + fixed + ([Spread(b)] + [Spread(c)] + [Spread(d)]))
            == Ok(a.elems + FixedPlugins + b.elems + c.elems + d.elems)
  {
    var head, tail := [Spread(a)] + fixed, [Spread(b)] + [Spread(c)] + [Spread(d)];
    SpreadThenFixed(a, fixed);
    SpreadThree(b, c, d);
    ArrayLiteralConcat(head, tail);
    assert (a.elems + FixedPlugins) + (b.elems + c.elems + d.elems)
           == a.elems + FixedPlugins + b.elems + c.elems + d.elems;
  }

  /** Whatever the flags, the plugin list builds without a TypeError, and it is exactly: the
      duplicate package checker when `karma` is falsy, the five unconditional plugins, then the
      CSS extractor, the static-directory copier and the bundle analyzer, each when its flag
      (for the copier, `production` or `server`) is truthy. */
  lemma PluginsAlwaysBuild(env: Env)
    ensures ArrayLiteral(PluginItems(env))
            == Ok(Opt(!Truthy(env.karma), Obj("DuplicatePackageCheckerPlugin"))
                  + FixedPlugins
                  + Opt(Truthy(env.extractCss), Obj("MiniCssExtractPlugin"))
                  + Opt(Truthy(env.production) || Truthy(env.server), Obj("CopyWebpackPlugin(static)"))
                  + Opt(Truthy(env.analyze), Obj("BundleAnalyzerPlugin")))
    ensures ArrayLiteral(PluginItems(env)).value[0] == Obj("DuplicatePackageCheckerPlugin") <==> !Truthy(env.karma)
  {
    var w0 := When(Not(env.karma), Obj("DuplicatePackageCheckerPlugin"), Undefined);
    var w6 := When(env.extractCss, Obj("MiniCssExtractPlugin"), Undefined);
    var w7 := When(Or(env.production, env.server), Obj("CopyWebpackPlugin(static)"), Undefined);
    var w8 := When(env.analyze, Obj("BundleAnalyzerPlugin"), Undefined);
    assert w0.elems == Opt(!Truthy(env.karma), Obj("DuplicatePackageCheckerPlugin"));
    assert w6.elems == Opt(Truthy(env.extractCss), Obj("MiniCssExtractPlugin"));
    assert w7.elems == Opt(Truthy(env.production) || Truthy(env.server), Obj("CopyWebpackPlugin(static)"));
    assert w8.elems == Opt(Truthy(env.analyze), Obj("BundleAnalyzerPlugin"));
    PluginItemsShape(env);
    PluginLiteral(w0, PluginItems(env)[1..6], w6, w7, w8);
    assert FixedPlugins[0] != Obj("DuplicatePackageCheckerPlugin");
  }
}

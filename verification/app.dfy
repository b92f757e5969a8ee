/**
 * `mergeProviders` and `createApp` (src/app.ts): providers registered with
 * `use` are folded around the app component at mount time, each one taking
 * the tree built so far as its `children`.
 */
module App {
  import opened Wrappers
  import opened Js

  type Props = map<string, JsValue>

  /** The component tree `mergeProviders` builds. */
  datatype Tree =
    | Root(app: string, props: Props)
    | Provided(provider: string, props: Props, children: Tree)

  /** One registered provider with its optional props. */
  datatype ProviderEntry = ProviderEntry(provider: string, opts: Option<Props>)

  /**
   * One step of the fold: the provider is created with `{...opts, children}`,
   * so a missing `opts` is `{}` and the `children` getter wins over any
   * `children` in `opts`.
   */
  function Wrap(inner: Tree, entry: ProviderEntry): (t: Tree)
    ensures t.Provided? && t.provider == entry.provider && t.children == inner
    ensures t.props.Keys == entry.opts.GetOr(map[]).Keys - {"children"}
  {
    Provided(entry.provider, entry.opts.GetOr(map[]) - {"children"}, inner)
  }

  /** `providers.reduce(wrap, app)`: a left fold, so the last provider ends up outermost. */
  function MergeProviders(app: Tree, providers: seq<ProviderEntry>): (t: Tree)
    ensures Depth(t) == Depth(app) + |providers|
    ensures Innermost(t) == Innermost(app)
    ensures providers != [] ==> t.Provided? && t.provider == providers[|providers| - 1].provider
  {
    if providers == [] then app
    else Wrap(MergeProviders(app, providers[..|providers| - 1]), providers[|providers| - 1])
  }

  /** The number of providers around the app. */
  function Depth(t: Tree): nat
  {
    match t
    case Root(_, _) => 0
    case Provided(_, _, c) => 1 + Depth(c)
  }

  /** The providers from the outermost inwards. */
  function Outermost(t: Tree): seq<string>
  {
    match t
    case Root(_, _) => []
    case Provided(p, _, c) => [p] + Outermost(c)
  }

  /** The tree at the centre. */
  function Innermost(t: Tree): Tree
  {
    match t
    case Root(_, _) => t
    case Provided(_, _, c) => Innermost(c)
  }

  function Reversed(s: seq<string>): (r: seq<string>)
    ensures |r| == |s|
  {
    if s == [] then [] else [s[|s| - 1]] + Reversed(s[..|s| - 1])
  }

  function Names(providers: seq<ProviderEntry>): (r: seq<string>)
    ensures |r| == |providers|
    ensures forall i :: 0 <= i < |providers| ==> r[i] == providers[i].provider
  {
    if providers == [] then [] else Names(providers[..|providers| - 1]) + [providers[|providers| - 1].provider]
  }

  /**
   * Around a root, the merged tree nests every provider exactly once: the
   * depth is the number of providers, reading from the outside gives the
   * providers in reverse registration order, and the root is at the centre.
   */
  lemma {:induction false} MergeShape(app: Tree, providers: seq<ProviderEntry>)
    requires app.Root?
    ensures Depth(MergeProviders(app, providers)) == |providers|
    ensures Outermost(MergeProviders(app, providers)) == Reversed(Names(providers))
    ensures Innermost(MergeProviders(app, providers)) == app
  {
    if providers != [] {
      var init := providers[..|providers| - 1];
      MergeShape(app, init);
      assert Names(providers)[..|providers| - 1] == Names(init);
    }
  }

  /** The provider registered last is the outermost one, and with no providers the tree is the app. */
  lemma LastIsOutermost(app: Tree, providers: seq<ProviderEntry>)
    requires app.Root?
    ensures providers == [] ==> MergeProviders(app, providers) == app
    ensures providers != [] ==> MergeProviders(app, providers).provider == providers[|providers| - 1].provider
  {
  }

  /** Provider `i` wraps exactly the tree built from providers `0..i-1`. */
  lemma {:induction false} ProviderWrapsPrefix(app: Tree, providers: seq<ProviderEntry>, i: nat)
    requires i < |providers|
    ensures Subtree(MergeProviders(app, providers), |providers| - 1 - i)
            == Wrap(MergeProviders(app, providers[..i]), providers[i])
  {
    var n := |providers|;
    if i < n - 1 {
      var init := providers[..n - 1];
      ProviderWrapsPrefix(app, init, i);
      assert init[..i] == providers[..i];
    } else {
      assert providers[..n - 1] == providers[..i];
    }
  }

  /** The tree `k` levels in, following `children`. */
  function Subtree(t: Tree, k: nat): Tree
  {
    if k == 0 then t
    else match t
      case Root(_, _) => t
      case Provided(_, _, c) => Subtree(c, k - 1)
  }

  /** `mount` throws in development builds when the selector finds no element. */
  datatype MountError = RootIsNull(message: string)

  /** What `render` receives. */
  datatype Mounted = Mounted(tree: Tree, root: Option<nat>)

  class AppBuilder {
    const app: string
    const appProps: Option<Props>
    /** The `providers` array `use` pushes onto. */
    var providers: seq<ProviderEntry>

    /** `createApp(app, appProps?)` */
    constructor (app: string, appProps: Option<Props>)
      ensures this.app == app && this.appProps == appProps && providers == []
    {
      this.app := app;
      this.appProps := appProps;
      providers := [];
    }

    /** `use(provider, props?)`: appends the pair and returns the same builder for chaining. */
    method Use(provider: string, props: Option<Props>) returns (self: AppBuilder)
      modifies this
      ensures self == this
      ensures providers == old(providers) + [ProviderEntry(provider, props)]
    {
      providers := providers + [ProviderEntry(provider, props)];
      self := this;
    }

    /**
     * `mount(selector)`: merges the providers around the app (whose props
     * default to `{}`) and renders into the element the selector found.
     * `root` is what `document.querySelector` returned.
     */
    method Mount(selector: string, root: Option<nat>, isDev: bool) returns (r: Result<Mounted, MountError>)
      ensures isDev && root.None? ==> r == Err(RootIsNull("root node \"" + selector + "\" is null"))
      ensures !(isDev && root.None?) ==>
                r == Ok(Mounted(MergeProviders(Root(app, appProps.GetOr(map[])), providers), root))
    {
      var application := MergeProviders(Root(app, appProps.GetOr(map[])), providers);
      if isDev && root.None? {
        return Err(RootIsNull("root node \"" + selector + "\" is null"));
      }
      r := Ok(Mounted(application, root));
    }
  }

  /** `createApp(A).use(P1).use(P2)` mounts P2 around P1 around A. */
  method ChainExample() returns (r: Result<Mounted, MountError>)
    ensures r == Ok(Mounted(Provided("P2", map[], Provided("P1", map[], Root("A", map[]))), Some(0)))
  {
    var a := new AppBuilder("A", None);
    var b := a.Use("P1", None);
    b := b.Use("P2", None);
    var e1, e2 := ProviderEntry("P1", None), ProviderEntry("P2", None);
    assert b.providers == [e1, e2];
    assert [e1, e2][..1] == [e1] && [e1][..0] == [];
    var empty: Props := map[];
    assert empty - {"children"} == empty;
    var root := Root("A", empty);
    assert MergeProviders(root, [e1]) == Provided("P1", empty, root);
    assert MergeProviders(root, [e1, e2]) == Provided("P2", empty, Provided("P1", empty, root));
    r := b.Mount("#app", Some(0), true);
  }
}

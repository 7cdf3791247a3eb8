/** The migration plan skeleton: the action classes and the `Migration`
    object that holds the plan.  As written, no action does anything, the
    plan generator adds nothing, and rendering a plan writes the literal text
    `{item}` once per action (the string is not an f-string, so the action is
    never looked at). */
module MigrationPlan {
  import OpenLdapConfig

  /** A raised `Exception(message)`. */
  datatype Exception = Exception(message: string)

  const NotImplemented := Exception("not implemented")

  /** A Python call either returns a value or raises. */
  datatype Outcome<T> = Returned(value: T) | Raised(exception: Exception)

  /** `MigrationAction` itself and its ten subclasses.  None of them has a
      field, and none overrides `apply` or `__unicode__`, so each case shares
      the base class's two members below. */
  datatype MigrationAction =
    | BaseAction
    | DatabaseCreate
    | DatabaseDelete
    | DatabaseIndexCreate
    | SchemaAttributeCreate
    | SchemaClassCreate
    | PluginMemberOfEnable
    | PluginMemberOfConfigure
    | PluginRefintEnable
    | PluginRefintConfigure
    | PluginUnqiueConfigure
  {
    /** `apply(self, inst)`: raises whatever the instance. */
    function Apply<I>(inst: I): (r: Outcome<()>)
      ensures r.Raised? && r.exception.message == "not implemented"
    {
      Raised(NotImplemented)
    }

    /** `__unicode__(self)`: raises too. */
    function Unicode(): (r: Outcome<string>)
      ensures r.Raised? && r.exception.message == "not implemented"
    {
      Raised(NotImplemented)
    }
  }

  /** Every concrete action behaves exactly as the base class: the same
      exception from `apply`, for every pair of instances, and from
      `__unicode__`. */
  lemma NoActionOverrides<I>(a: MigrationAction, inst: I, other: I)
    ensures a.Apply(inst) == BaseAction.Apply(other) == Raised(NotImplemented)
    ensures a.Unicode() == BaseAction.Unicode() == Raised(NotImplemented)
  {
  }

  /** The text appended once per plan element. */
  const ItemLine := "{item}\n"

  /** What `Migration.__unicode__` returns for a plan. */
  function Rendering(plan: seq<MigrationAction>): string
    decreases |plan|
  {
    if plan == [] then "" else Rendering(plan[..|plan| - 1]) + ItemLine
  }

  /** Seven characters per element, so the empty plan renders as "". */
  lemma {:induction false} RenderingLength(plan: seq<MigrationAction>)
    ensures |Rendering(plan)| == 7 * |plan|
    decreases |plan|
  {
    if plan != [] {
      RenderingLength(plan[..|plan| - 1]);
    }
  }

  /** Rendering a concatenation concatenates the renderings. */
  lemma {:induction false} RenderingAppend(p: seq<MigrationAction>, q: seq<MigrationAction>)
    ensures Rendering(p + q) == Rendering(p) + Rendering(q)
    decreases |q|
  {
    if q == [] {
      assert p + q == p;
    } else {
      var q' := q[..|q| - 1];
      assert (p + q)[..|p + q| - 1] == p + q';
      RenderingAppend(p, q');
    }
  }

  /** Line `i` of the rendering is the literal `{item}`, whatever the
      `i`-th action is. */
  lemma {:induction false} RenderingLine(plan: seq<MigrationAction>, i: nat)
    requires i < |plan|
    ensures |Rendering(plan)| == 7 * |plan|
    ensures Rendering(plan)[7 * i..7 * i + 7] == ItemLine
    decreases |plan|
  {
    RenderingLength(plan);
    var init := plan[..|plan| - 1];
    RenderingLength(init);
    if i < |plan| - 1 {
      RenderingLine(init, i);
      assert Rendering(plan)[7 * i..7 * i + 7] == Rendering(init)[7 * i..7 * i + 7];
    } else {
      assert Rendering(plan)[7 * i..] == ItemLine;
    }
  }

  /** The rendering depends only on how many actions there are. */
  lemma {:induction false} RenderingIgnoresActions(p: seq<MigrationAction>, q: seq<MigrationAction>)
    requires |p| == |q|
    ensures Rendering(p) == Rendering(q)
    decreases |p|
  {
    if p != [] {
      RenderingIgnoresActions(p[..|p| - 1], q[..|q| - 1]);
    }
  }

  /** `Migration(olconfig, inst)`: the plan of migration actions built from
      an OpenLDAP configuration for a target instance `inst`. */
  class Migration<I> {
    var olconfig: OpenLdapConfig.OlConfig
    var inst: I
    var plan: seq<MigrationAction>

    constructor (olconfig: OpenLdapConfig.OlConfig, inst: I)
      ensures this.olconfig == olconfig && this.inst == inst
      ensures plan == []
    {
      this.olconfig := olconfig;
      this.inst := inst;
      plan := [];
      new;
      GenMigrationPlan();
    }

    /** `__unicode__`: one `{item}` line per plan element.  It has no
        `modifies` clause, so the plan is left as it was. */
    method Unicode() returns (buff: string)
      ensures buff == Rendering(plan)
      ensures |buff| == 7 * |plan|
    {
      buff := "";
      for i := 0 to |plan|
        invariant buff == Rendering(plan[..i])
      {
        assert plan[..i + 1][..i] == plan[..i];
        buff := buff + ItemLine;
      }
      assert plan[..|plan|] == plan;
      RenderingLength(plan);
    }

    /** `_gen_migration_plan`: its body is `pass`; with no `modifies` clause
        the plan keeps what it held. */
    method GenMigrationPlan()
    {
    }
  }
}

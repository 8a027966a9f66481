/**
 * The runner of l_test.c: _exec_module runs one module's task between a
 * header and a summary, and l_test_main walks the registered modules.
 */
module Runner {
  import opened CTypes
  import opened Assertions
  import opened Console
  import opened TestModule
  import opened Cases
  import opened Registry

  /** A module as it is after _exec_module has run its task. */
  function Executed(v: ModuleView): (w: ModuleView)
    requires v.task.Some?
  {
    var t := v.task.value;
    v.(tcase := TaskCase(v.tcase, t), ncases := v.ncases + |t|, ngood := v.ngood + NumPassed(t),
       telapsed := Accumulated(0, t))
  }

  /** What _exec_module prints for a module: header, description, the cases, and the summary. */
  function ModuleLog(v: ModuleView): seq<Event>
    requires v.task.Some?
  {
    var w := Executed(v);
    [ModuleHeader(v.name)]
      + (if v.desc.Some? then [ModuleDesc(v.desc.value)] else [])
      + TaskLog(v.task.value)
      + [ModuleSummary(v.name, Wrap32(w.ngood), Wrap32(w.ncases), w.telapsed)]
  }

  /**
   * The shape of a module's log: the header first, then the description when
   * there is one, and the summary with the module's final counts last.
   */
  lemma ModuleLogShape(v: ModuleView)
    requires v.task.Some?
    ensures var log, w := ModuleLog(v), Executed(v);
            && |log| >= 2 && log[0] == ModuleHeader(v.name)
            && (v.desc.Some? ==> |log| >= 3 && log[1] == ModuleDesc(v.desc.value))
            && log[|log| - 1] == ModuleSummary(v.name, Wrap32(w.ngood), Wrap32(w.ncases), w.telapsed)
  {
  }

  /**
   * A module whose counts are still equal, and every assertion of whose task
   * holds, has passed every case it ran once its task has run.
   */
  lemma AllPassingModule(v: ModuleView)
    requires v.task.Some? && v.ngood == v.ncases
    requires forall i, j :: 0 <= i < |v.task.value| && 0 <= j < |v.task.value[i].body| ==> Holds(v.task.value[i].body[j])
    ensures Executed(v).ngood == Executed(v).ncases
  {
    AllPassingTask(v.task.value);
  }

  /** _exec_module. The caller guarantees that the module has a task. */
  method ExecModule(mod: Module, out: Output)
    requires mod.Valid() && mod.task.Some?
    modifies mod`tcase, mod`ncases, mod`ngood, mod`telapsed, out`events
    ensures mod.Valid()
    ensures mod.View() == Executed(old(mod.View()))
    ensures out.events == old(out.events) + ModuleLog(old(mod.View()))
  {
    ghost var v := mod.View();
    ghost var opening := [ModuleHeader(mod.name)] + (if mod.desc.Some? then [ModuleDesc(mod.desc.value)] else []);
    out.Print(ModuleHeader(mod.name));
    if mod.desc.Some? {
      out.Print(ModuleDesc(mod.desc.value));
      AppendAssoc(old(out.events), [ModuleHeader(mod.name)], [ModuleDesc(mod.desc.value)]);
    } else {
      assert opening == [ModuleHeader(mod.name)];
    }
    mod.telapsed := 0;
    RunTask(mod, out, mod.task.value);
    AppendAssoc(old(out.events), opening, TaskLog(v.task.value));
    out.Print(ModuleSummary(mod.name, Wrap32(mod.ngood), Wrap32(mod.ncases), mod.telapsed));
    AppendAssoc(old(out.events), opening + TaskLog(v.task.value), [ModuleSummary(mod.name, Wrap32(mod.ngood), Wrap32(mod.ncases), mod.telapsed)]);
  }

  /** A module as it is after the runner has visited it: run when it has a task, untouched otherwise. */
  function Visited(v: ModuleView): ModuleView
  {
    if v.task.Some? then Executed(v) else v
  }

  /** What the runner prints for a module: nothing for a module without a task. */
  function VisitLog(v: ModuleView): seq<Event>
  {
    if v.task.Some? then ModuleLog(v) else []
  }

  /** One step of l_test_main's walk: a module with a task is executed, one without is passed over. */
  method Visit(mod: Module, out: Output)
    requires mod.Valid()
    modifies mod`tcase, mod`ncases, mod`ngood, mod`telapsed, out`events
    ensures mod.Valid()
    ensures mod.View() == Visited(old(mod.View()))
    ensures out.events == old(out.events) + VisitLog(old(mod.View()))
  {
    if mod.task.Some? {
      ExecModule(mod, out);
    }
  }

  /** What the runner prints for a list of modules, in list order. */
  function RunLog(vs: seq<ModuleView>): seq<Event>
  {
    if vs == [] then [] else RunLog(vs[..|vs| - 1]) + VisitLog(vs[|vs| - 1])
  }

  /** The log of the first i + 1 modules extends the log of the first i by module i's. */
  lemma RunLogStep(vs: seq<ModuleView>, i: nat)
    requires i < |vs|
    ensures RunLog(vs[..i + 1]) == RunLog(vs[..i]) + VisitLog(vs[i])
  {
    assert vs[..i + 1][..i] == vs[..i];
  }

  /** A list of one module prints that module's log. */
  lemma RunLogSingle(v: ModuleView)
    ensures RunLog([v]) == VisitLog(v)
  {
    assert [v][..0] == [];
    assert [] + VisitLog(v) == VisitLog(v);
  }

  /** The views of a list of modules. */
  function Views(ms: seq<Module>): (vs: seq<ModuleView>)
    reads ms
    ensures |vs| == |ms| && forall i :: 0 <= i < |ms| ==> vs[i] == ms[i].View()
  {
    if ms == [] then [] else Views(ms[..|ms| - 1]) + [ms[|ms| - 1].View()]
  }

  /**
   * Where the walk of l_test_main stands after visiting the first `i` modules
   * of `list`, whose views at the start were `views`: the chain is intact, the
   * visited modules are as Visited makes them, the others are untouched, and
   * the output holds what it held at the start, `before`, followed by the
   * logs of the visited modules.
   */
  ghost predicate Walked(reg: Registry, out: Output, list: seq<Module>, views: seq<ModuleView>, before: seq<Event>, i: nat)
    reads reg, out, list
  {
    && reg.list == list && reg.Valid() && |views| == |list| && i <= |list|
    && (forall k :: 0 <= k < |list| ==> list[k].Valid())
    && (forall k :: 0 <= k < i ==> list[k].View() == Visited(views[k]))
    && (forall k :: i <= k < |list| ==> list[k].View() == views[k])
    && out.events == before + RunLog(views[..i])
  }

  /** Before the first step, nothing is visited and nothing is printed. */
  lemma WalkStart(reg: Registry, out: Output)
    requires reg.Valid()
    requires forall k :: 0 <= k < |reg.list| ==> reg.list[k].Valid()
    ensures Walked(reg, out, reg.list, Views(reg.list), out.events, 0)
  {
    assert Views(reg.list)[..0] == [];
  }

  /** One step of the walk: visiting module `i`, which is no other module of the list. */
  method Step(reg: Registry, out: Output, mod: Module, ghost list: seq<Module>, ghost views: seq<ModuleView>,
              ghost before: seq<Event>, ghost i: nat)
    requires Walked(reg, out, list, views, before, i) && i < |list| && mod == list[i]
    modifies mod`tcase, mod`ncases, mod`ngood, mod`telapsed, out`events
    ensures Walked(reg, out, list, views, before, i + 1)
  {
    assert forall k :: 0 <= k < |list| && k != i ==> list[k] != mod by {
      forall k | 0 <= k < |list| && k != i ensures list[k] != mod {
        assert reg.pos[list[k]] == k && reg.pos[list[i]] == i;
      }
    }
    RunLogStep(views, i);
    Visit(mod, out);
    AppendAssoc(before, RunLog(views[..i]), VisitLog(views[i]));
  }

  /**
   * Where the walk of l_test_main ends: the chain is intact and every module
   * of `list`, whose views at the start were `views`, is as Visited makes it.
   */
  ghost predicate Done(reg: Registry, list: seq<Module>, views: seq<ModuleView>)
    reads reg, list
  {
    && reg.list == list && reg.Valid() && |views| == |list|
    && forall k :: 0 <= k < |list| ==> list[k].Valid() && list[k].View() == Visited(views[k])
  }

  /** At the end of the walk every module is visited and the output holds all their logs. */
  lemma WalkDone(reg: Registry, out: Output, list: seq<Module>, views: seq<ModuleView>, before: seq<Event>)
    requires Walked(reg, out, list, views, before, |list|)
    ensures Done(reg, list, views)
    ensures out.events == before + RunLog(views)
  {
    assert views[..|list|] == views;
  }

  /**
   * The loop of l_test_main: from `entrymodule`, visit each module and follow
   * its `next` link until it is NULL.
   */
  method Walk(reg: Registry, out: Output)
    requires reg.Valid()
    requires forall k :: 0 <= k < |reg.list| ==> reg.list[k].Valid()
    modifies reg.list, out`events
    ensures Done(reg, old(reg.list), old(Views(reg.list)))
    ensures out.events == old(out.events) + RunLog(old(Views(reg.list)))
  {
    ghost var list := reg.list;
    ghost var views := Views(list);
    var mod := reg.entry;
    ghost var i := 0;
    WalkStart(reg, out);
    while mod != null
      invariant Walked(reg, out, list, views, old(out.events), i)
      invariant mod == (if i < |list| then list[i] else null)
      decreases |list| - i
    {
      Step(reg, out, mod, list, views, old(out.events), i);
      mod := mod.next;
      i := i + 1;
    }
    WalkDone(reg, out, list, views, old(out.events));
  }

  /**
   * The body of l_test_main that L_UNIT_TESTS enables: the start banner, a
   * visit to every registered module in registration order, running those
   * that have a task, and the end banner.
   */
  method Run(reg: Registry, out: Output)
    requires reg.Valid()
    requires forall k :: 0 <= k < |reg.list| ==> reg.list[k].Valid()
    modifies reg.list, out`events
    ensures Done(reg, old(reg.list), old(Views(reg.list)))
    ensures out.events == old(out.events) + [RunStart] + RunLog(old(Views(reg.list))) + [RunEnd]
  {
    out.Print(RunStart);
    Walk(reg, out);
    out.Print(RunEnd);
  }

  /**
   * l_test_main: with L_UNIT_TESTS defined (`unitTests`) it runs the
   * registered modules; without it, it does nothing. Either way it returns 0.
   */
  method TestMain(reg: Registry, out: Output, unitTests: bool) returns (status: int)
    requires reg.Valid()
    requires forall k :: 0 <= k < |reg.list| ==> reg.list[k].Valid()
    modifies reg.list, out`events
    ensures status == 0
    ensures reg.Valid() && reg.list == old(reg.list)
    ensures forall k :: 0 <= k < |reg.list| ==> reg.list[k].Valid()
    ensures unitTests ==>
              && out.events == old(out.events) + [RunStart] + RunLog(old(Views(reg.list))) + [RunEnd]
              && forall k :: 0 <= k < |reg.list| ==> reg.list[k].View() == Visited(old(reg.list[k].View()))
    ensures !unitTests ==>
              && out.events == old(out.events)
              && forall k :: 0 <= k < |reg.list| ==> reg.list[k].View() == old(reg.list[k].View())
  {
    if unitTests {
      Run(reg, out);
    }
    return 0;
  }
}

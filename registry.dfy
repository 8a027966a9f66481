/**
 * The process-wide module list of l_test.c (`entrymodule` and
 * __ltest_module_pushback) and the registration that the module
 * declaration macros of l_test.h perform at startup.
 */
module Registry {
  import opened CTypes
  import opened TestModule

  /** `entrymodule` and the chain of `next` links that hangs from it. */
  class Registry {
    var entry: Module?
    ghost var list: seq<Module>   // the modules reachable from `entry`, in link order
    ghost var pos: map<Module, nat>  // where each module stands in `list`

    /**
     * `list` is exactly the chain: it starts at `entry`, each module links to
     * the one after it, the last link is NULL, and no module occurs twice
     * (each has a single position).
     */
    ghost predicate Valid()
      reads this, list`next
    {
      && (entry == null <==> list == [])
      && (list != [] ==> entry == list[0] && list[|list| - 1].next == null)
      && (forall i :: 0 <= i < |list| - 1 ==> list[i].next == list[i + 1])
      && (forall i :: 0 <= i < |list| ==> list[i] in pos && pos[list[i]] == i)
    }

    /** `entrymodule = NULL` at program start. */
    constructor ()
      ensures Valid() && entry == null && list == []
    {
      entry := null;
      list := [];
      pos := map[];
    }

    /**
     * __ltest_module_pushback: a NULL module is ignored; otherwise the module
     * becomes the head of an empty list or is linked after the current tail,
     * which is found by walking the `next` links. Only the old tail's link
     * changes. The module must not be registered already (linking the tail to
     * itself would close a cycle) and, as the declaration macro initialises
     * it, must have no successor.
     */
    method PushBack(mod: Module?)
      requires Valid()
      requires mod != null ==> mod !in list && mod.next == null
      modifies this, list
      ensures Valid()
      ensures list == if mod == null then old(list) else old(list) + [mod]
      ensures entry == if old(entry) == null then mod else old(entry)
      ensures forall k :: 0 <= k < |old(list)| ==> old(list)[k].View() == old(list[k].View())
    {
      if mod == null {
        return;
      }
      if entry == null {
        entry := mod;
        list := [mod];
        pos := map[mod := 0];
        return;
      }
      var m := entry;
      ghost var i := 0;
      while m.next != null
        invariant Valid() && list == old(list) && pos == old(pos)
        invariant 0 <= i < |list| && m == list[i]
        invariant m.next == if i < |list| - 1 then list[i + 1] else null
        decreases |list| - i
      {
        m := m.next;
        i := i + 1;
      }
      m.next := mod;
      pos := pos[mod := |list|];
      list := list + [mod];
    }
  }

  /**
   * Whether a module declaration registers its module: only L_TEST_MODULE
   * does, and only when L_UNIT_TESTS is defined. DISABLED_L_TEST_MODULE, and
   * L_TEST_MODULE without L_UNIT_TESTS, declare the task function alone.
   */
  predicate Registers(disabled: bool, unitTests: bool) {
    !disabled && unitTests
  }

  /**
   * One module declaration and its startup constructor. A registering
   * declaration creates the static module (name, description and task set,
   * everything else zero) and pushes it back; the others create no module.
   */
  method Declare(reg: Registry, name: string, desc: string, task: Task, disabled: bool, unitTests: bool)
    returns (mod: Module?)
    requires reg.Valid()
    modifies reg, reg.list
    ensures reg.Valid()
    ensures mod != null <==> Registers(disabled, unitTests)
    ensures mod != null ==>
              && fresh(mod) && mod.Valid()
              && mod.View() == ModuleView(name, Some(desc), Some(task), ZeroCase, 0, 0, 0)
    ensures reg.list == old(reg.list) + (if mod == null then [] else [mod])
    ensures forall k :: 0 <= k < |old(reg.list)| ==> old(reg.list)[k].View() == old(reg.list[k].View())
  {
    mod := null;
    if Registers(disabled, unitTests) {
      mod := new Module(name, Some(desc), Some(task));
      reg.PushBack(mod);
    }
  }
}

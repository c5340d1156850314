/**
 * The category form of the back office: the parent drop-down offers only
 * top-level categories, and never the category being edited.
 */
module Forms {
  import opened Wrappers
  import opened Models

  /**
   * The parent choices of `CategoryForm` for the instance with primary key
   * `instancePk` (0 for an unsaved instance), in table order.
   */
  function ParentChoices(table: seq<Category>, instancePk: nat): (choices: seq<Category>)
    ensures forall x :: x in choices <==> x in table && x.parent.None? && (instancePk == 0 || x.id != instancePk)
    decreases |table|
  {
    if table == [] then []
    else
      var x := table[0];
      (if x.parent.None? && (instancePk == 0 || x.id != instancePk) then [x] else [])
      + ParentChoices(table[1..], instancePk)
  }

  /** An unsaved instance is offered exactly the top-level categories. */
  lemma UnsavedSeesAllTopLevel(table: seq<Category>)
    ensures forall x :: x in ParentChoices(table, 0) <==> x in table && x.parent.None?
  {
  }

  /**
   * Any parent picked from the choices passes `Category.clean`'s depth
   * check, and it is never the category itself.
   */
  lemma ChosenParentPassesClean(table: seq<Category>, c: Category, choice: Category)
    requires DistinctIds(table)
    requires choice in ParentChoices(table, c.id)
    ensures Clean(table, c.(parent := Some(choice.id))).Pass?
    ensures c.id != 0 ==> choice.id != c.id
  {
    FindKeyed(table, choice);
  }
}

/**
 * The `QuickActions` floating menu: a primary button that either runs its action or
 * expands the list of secondary actions, and a backdrop that collapses it.
 */
module QuickActions {
  import opened Wrappers
  import opened Seqs

  datatype ActionVariant = Primary | Secondary

  /**
   * An action; `onClick` is identified with the action itself, and `title` holds the `label`
   * field, `label` being a Dafny keyword.
   */
  datatype QuickAction = QuickAction(id: string, title: string, variant: Option<ActionVariant>, color: Option<string>)

  /** `defaultActions`: one primary and two secondary actions. */
  const DefaultActions: seq<QuickAction> := [
    QuickAction("add-transaction", "Ajouter une transaction", Some(Primary), Some("#10b981")),
    QuickAction("record-income", "Enregistrer un revenu", Some(Secondary), Some("#22c55e")),
    QuickAction("set-budget", "D\U{E9}finir un budget", Some(Secondary), Some("#3b82f6"))]

  predicate IsPrimary(a: QuickAction) { a.variant == Some(Primary) }

  predicate IsSecondary(a: QuickAction) { a.variant == Some(Secondary) }

  /** `actions.find(a => a.variant === 'primary') || actions[0]`, as a position in `actions`. */
  function PrimaryIndex(actions: seq<QuickAction>): (k: nat)
    requires |actions| > 0
    ensures k < |actions|
    ensures (exists i :: 0 <= i < |actions| && IsPrimary(actions[i])) ==>
      IsPrimary(actions[k]) && forall j :: 0 <= j < k ==> !IsPrimary(actions[j])
    ensures (forall i :: 0 <= i < |actions| ==> !IsPrimary(actions[i])) ==> k == 0
  {
    var i := FindIndex(actions, IsPrimary);
    if i < 0 then 0 else i
  }

  /** `actions.filter(a => a.variant === 'secondary')`. */
  function SecondaryActions(actions: seq<QuickAction>): seq<QuickAction>
  {
    Filter(actions, IsSecondary)
  }

  /** The secondary actions are exactly the actions whose variant is secondary... */
  lemma SecondaryExactly(actions: seq<QuickAction>, a: QuickAction)
    ensures a in SecondaryActions(actions) <==> a in actions && IsSecondary(a)
  {
    if a in actions && IsSecondary(a) {
      FilterKeeps(actions, IsSecondary, a);
    }
  }

  /** ... in their original order: the list of a concatenation is the concatenation of the lists. */
  lemma SecondaryInOrder(a: seq<QuickAction>, b: seq<QuickAction>)
    ensures SecondaryActions(a + b) == SecondaryActions(a) + SecondaryActions(b)
  {
    FilterAppend(a, b, IsSecondary);
  }

  /** The default menu's primary action is "add-transaction" and it has two secondary actions. */
  lemma DefaultMenu()
    ensures PrimaryIndex(DefaultActions) == 0
    ensures SecondaryActions(DefaultActions) == DefaultActions[1..]
  {
    assert IsPrimary(DefaultActions[0]);
    assert DefaultActions[1..][1..] == [DefaultActions[2]];
  }

  /** The menu's state. `invoked` records, in order, the actions whose `onClick` ran. */
  class Menu {
    const actions: seq<QuickAction>
    var isExpanded: bool
    var invoked: seq<QuickAction>

    /** The menu never expands without secondary actions to show. */
    ghost predicate Valid()
      reads this
    {
      |actions| > 0 && (isExpanded ==> |SecondaryActions(actions)| > 0)
    }

    /** Mounting with the `actions` prop, the default list when it is absent; it starts collapsed. */
    constructor (actions: Option<seq<QuickAction>>)
      requires actions.None? || |actions.value| > 0
      ensures Valid()
      ensures this.actions == actions.GetOr(DefaultActions)
      ensures !isExpanded && invoked == []
    {
      this.actions := actions.GetOr(DefaultActions);
      isExpanded := false;
      invoked := [];
    }

    /** The backdrop is rendered while the menu is expanded. */
    predicate BackdropShown()
      reads this
    {
      isExpanded
    }

    /** The close icon replaces the primary icon while expanded, when there are secondary actions. */
    predicate CloseIconShown()
      reads this
    {
      isExpanded && |SecondaryActions(actions)| > 0
    }

    /** The primary button's `aria-label`. */
    function PrimaryLabel(): string
      reads this
      requires |actions| > 0
    {
      if isExpanded then "Fermer le menu" else actions[PrimaryIndex(actions)].title
    }

    /** In a valid menu the close icon shows exactly when the backdrop does. */
    lemma CloseIconWithBackdrop()
      requires Valid()
      ensures CloseIconShown() <==> BackdropShown()
    {
    }

    /** A click on the primary button: toggle when there are secondary actions, otherwise run the primary action. */
    method ClickPrimary()
      requires Valid()
      modifies this
      ensures Valid()
      ensures |SecondaryActions(actions)| > 0 ==> isExpanded == !old(isExpanded) && invoked == old(invoked)
      ensures |SecondaryActions(actions)| == 0 ==>
        isExpanded == old(isExpanded) && invoked == old(invoked) + [actions[PrimaryIndex(actions)]]
    {
      if |SecondaryActions(actions)| > 0 {
        isExpanded := !isExpanded;
      } else {
        invoked := invoked + [actions[PrimaryIndex(actions)]];
      }
    }

    /**
     * A click on the `k`-th secondary action: run it once, then collapse. A collapsed menu keeps
     * its secondary buttons rendered (only hidden), so a keyboard activation reaches them too.
     */
    method ClickSecondary(k: nat)
      requires Valid() && k < |SecondaryActions(actions)|
      modifies this
      ensures Valid()
      ensures !isExpanded && invoked == old(invoked) + [SecondaryActions(actions)[k]]
    {
      invoked := invoked + [SecondaryActions(actions)[k]];
      isExpanded := false;
    }

    /** A click on the backdrop, which exists only while expanded: collapse and run nothing. */
    method ClickBackdrop()
      requires Valid() && BackdropShown()
      modifies this
      ensures Valid()
      ensures !isExpanded && invoked == old(invoked)
    {
      isExpanded := false;
    }
  }
}

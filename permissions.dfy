/**
 * Who may change an expense. A logged-in user with `canEditAll` may edit
 * or delete any expense; anyone else only the expenses they created; and
 * nobody may when no one is logged in.
 */
module Permissions {
  import opened Common
  import opened Records
  import Store

  /** canEditExpense: `user` is the session user, None when logged out. */
  predicate CanEditExpense(user: Option<User>, e: Expense)
  {
    user.Some? && (user.value.canEditAll || e.data.createdBy == user.value.id)
  }

  /** canDeleteExpense defers to canEditExpense. */
  predicate CanDeleteExpense(user: Option<User>, e: Expense)
  {
    CanEditExpense(user, e)
  }

  /**
   * For the three accounts the store starts with: the parents may edit and
   * delete every expense, Juan Martín exactly the ones he created, and a
   * logged-out session none.
   */
  lemma DefaultAccountPermissions(e: Expense)
    ensures forall u :: u in Store.DefaultUsers && u.role == Parent ==> CanEditExpense(Some(u), e)
    ensures forall u :: u in Store.DefaultUsers && u.role == Collaborator ==>
      (CanEditExpense(Some(u), e) <==> e.data.createdBy == JuanMartin)
    ensures forall u :: u in Store.DefaultUsers ==> (CanDeleteExpense(Some(u), e) <==> CanEditExpense(Some(u), e))
    ensures !CanEditExpense(None, e) && !CanDeleteExpense(None, e)
  {
    assert Store.DefaultUsers[2].role == Collaborator && Store.DefaultUsers[2].id == JuanMartin;
  }

  /** Whoever created an expense may edit it, whatever their flags. */
  lemma CreatorCanEdit(u: User, e: Expense)
    requires e.data.createdBy == u.id
    ensures CanEditExpense(Some(u), e) && CanDeleteExpense(Some(u), e)
  {
  }

  /**
   * Ids are compared as strings: a user with an unknown id and no
   * `canEditAll` may not edit an expense created under a different unknown id.
   */
  lemma UnknownIdsStayApart(u: User, e: Expense)
    requires !u.canEditAll && u.id.OtherUser? && e.data.createdBy.OtherUser?
    requires e.data.createdBy.name != u.id.name
    ensures !CanEditExpense(Some(u), e) && !CanDeleteExpense(Some(u), e)
  {
  }

  /**
   * A user without `canEditAll` is confined to their own expenses: among any
   * expenses, the ones they may edit are exactly the ones they created.
   */
  lemma {:induction false} EditableByCollaborator(u: User, es: seq<Expense>)
    requires !u.canEditAll
    ensures Filter(es, (e: Expense) => CanEditExpense(Some(u), e)) == Filter(es, (e: Expense) => e.data.createdBy == u.id)
  {
    if es != [] {
      EditableByCollaborator(u, es[1..]);
    }
  }
}

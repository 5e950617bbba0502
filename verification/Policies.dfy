/** Management policies: `pkg/reconciler/managed/policies.go`. */
module Policies {

  datatype Action = All | Observe | Create | Update | Delete | LateInitialize

  datatype DeletionPolicy = Orphan | DeleteExternal | Unset

  /** Both resolvers; `legacy` tells them apart. */
  datatype Resolver = Resolver(
    legacy: bool,
    enabled: bool,
    supported: seq<set<Action>>,
    policies: set<Action>,
    deletionPolicy: DeletionPolicy)
  {
    predicate Valid() {
      if !enabled then policies == {All} || policies == {}
      else policies in supported
    }

    predicate Paused() {
      enabled && policies == {}
    }

    predicate Allows(a: Action) {
      !enabled || a in policies || All in policies
    }

    predicate ShouldCreate() { Allows(Create) }

    predicate ShouldUpdate() { Allows(Update) }

    predicate ShouldLateInitialize() { Allows(LateInitialize) }

    predicate ShouldOnlyObserve() {
      enabled && policies == {Observe}
    }

    predicate ShouldDelete() {
      if !legacy then Allows(Delete)
      else if !enabled then deletionPolicy != Orphan
      else
        || (deletionPolicy == DeleteExternal && (Delete in policies || All in policies))
        || (policies != {All} && Delete in policies)
    }
  }
}

/** The per-user namespace: each user's chunks live in the collection `user_{userId}_writings`,
    derived the same way by the ingester and by the retriever. */
module Namespace {

  const NamePrefix := "user_"
  const NameSuffix := "_writings"

  /** `f"user_{userId}_writings"`. */
  function CollectionName(userId: string): (name: string)
    ensures |name| == |NamePrefix| + |userId| + |NameSuffix|
    ensures name[..|NamePrefix|] == NamePrefix
    ensures name[|NamePrefix|..|name| - |NameSuffix|] == userId
    ensures name[|name| - |NameSuffix|..] == NameSuffix
  {
    NamePrefix + userId + NameSuffix
  }

  /** The user a collection name belongs to. */
  function UserOf(name: string): string
    requires |name| >= |NamePrefix| + |NameSuffix|
  {
    name[|NamePrefix|..|name| - |NameSuffix|]
  }

  /** The user can be read back from the collection name. */
  lemma UserOfCollectionName(userId: string)
    ensures UserOf(CollectionName(userId)) == userId
  {
  }

  /** Distinct users get distinct collections, so no user's chunks are visible to another. */
  lemma CollectionNameInjective(u: string, v: string)
    requires CollectionName(u) == CollectionName(v)
    ensures u == v
  {
    UserOfCollectionName(u);
    UserOfCollectionName(v);
  }
}

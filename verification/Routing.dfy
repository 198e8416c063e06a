/** Which providers serve a model and in which order, and what the model endpoints say about it. */
module Routing {
  import opened Wrappers
  import opened Api

  // ---------- select_providers ----------

  function Capable(registry: seq<Provider>, model: string): seq<Provider> {
    if registry == [] then []
    else if registry[0].Serves(model) then [registry[0]] + Capable(registry[1..], model)
    else Capable(registry[1..], model)
  }

  /** Puts `p` in front of the first provider that does not come strictly before it. */
  function Insert(p: Provider, ordered: seq<Provider>): seq<Provider> {
    if ordered == [] || p.priority <= ordered[0].priority then [p] + ordered
    else [ordered[0]] + Insert(p, ordered[1..])
  }

  /** The stable sort by ascending priority. */
  function ByPriority(providers: seq<Provider>): seq<Provider> {
    if providers == [] then [] else Insert(providers[0], ByPriority(providers[1..]))
  }

  function SelectProviders(registry: seq<Provider>, model: string): seq<Provider> {
    ByPriority(Capable(registry, model))
  }

  ghost predicate Ordered(s: seq<Provider>) {
    forall i, j :: 0 <= i < j < |s| ==> s[i].priority <= s[j].priority
  }

  /** The providers of one priority, in the order in which they occur. */
  ghost function Rank(s: seq<Provider>, priority: int): seq<Provider> {
    if s == [] then []
    else if s[0].priority == priority then [s[0]] + Rank(s[1..], priority)
    else Rank(s[1..], priority)
  }

  lemma {:induction false} InsertMembers(p: Provider, s: seq<Provider>)
    ensures forall q :: q in Insert(p, s) <==> q == p || q in s
  {
    if s != [] && p.priority > s[0].priority {
      InsertMembers(p, s[1..]);
    }
  }

  lemma {:induction false} InsertKeepsOrder(p: Provider, s: seq<Provider>)
    requires Ordered(s)
    ensures Ordered(Insert(p, s))
  {
    if s != [] && p.priority > s[0].priority {
      InsertKeepsOrder(p, s[1..]);
      InsertMembers(p, s[1..]);
      var rest := Insert(p, s[1..]);
      forall i | 0 <= i < |rest| ensures s[0].priority <= rest[i].priority {
        assert rest[i] in rest;
      }
    }
  }

  lemma {:induction false} InsertKeepsRank(p: Provider, s: seq<Provider>, priority: int)
    ensures Rank(Insert(p, s), priority)
         == if p.priority == priority then [p] + Rank(s, priority) else Rank(s, priority)
  {
    if s == [] || p.priority <= s[0].priority {
      assert ([p] + s)[1..] == s;
    } else {
      InsertKeepsRank(p, s[1..], priority);
      assert Insert(p, s)[1..] == Insert(p, s[1..]);
    }
  }

  lemma {:induction false} ByPriorityKeeps(s: seq<Provider>, priority: int)
    ensures Ordered(ByPriority(s))
    ensures Rank(ByPriority(s), priority) == Rank(s, priority)
    ensures forall q :: q in ByPriority(s) <==> q in s
  {
    if s != [] {
      ByPriorityKeeps(s[1..], priority);
      var sorted := ByPriority(s[1..]);
      InsertMembers(s[0], sorted);
      InsertKeepsOrder(s[0], sorted);
      InsertKeepsRank(s[0], sorted, priority);
    }
  }

  lemma {:induction false} CapableExactly(registry: seq<Provider>, model: string)
    ensures forall q :: q in Capable(registry, model) <==> q in registry && q.Serves(model)
  {
    if registry != [] {
      CapableExactly(registry[1..], model);
    }
  }

  /** The routing order holds exactly the capable providers, is sorted, and is stable inside a priority. */
  lemma SelectionIsStableSort(registry: seq<Provider>, model: string, priority: int)
    ensures Ordered(SelectProviders(registry, model))
    ensures Rank(SelectProviders(registry, model), priority) == Rank(Capable(registry, model), priority)
    ensures forall q :: q in SelectProviders(registry, model) <==> q in registry && q.Serves(model)
  {
    ByPriorityKeeps(Capable(registry, model), priority);
    CapableExactly(registry, model);
  }

  lemma {:induction false} RankHead(s: seq<Provider>, priority: int)
    requires Ordered(s)
    ensures Rank(s, priority) == [] <==> forall i :: 0 <= i < |s| ==> s[i].priority != priority
    ensures Rank(s, priority) != [] ==> Rank(s, priority)[0].priority == priority
  {
    if s != [] {
      RankHead(s[1..], priority);
      assert forall i :: 0 < i < |s| ==> s[i] == s[1..][i - 1];
    }
  }

  /** Those properties leave no freedom: they name a single sequence. */
  lemma {:induction false} StableSortIsUnique(a: seq<Provider>, b: seq<Provider>)
    requires Ordered(a) && Ordered(b)
    requires forall priority :: Rank(a, priority) == Rank(b, priority)
    ensures a == b
  {
    if a == [] {
      if b != [] {
        RankHead(a, b[0].priority);
        RankHead(b, b[0].priority);
        assert false;
      }
    } else {
      var p := a[0].priority;
      RankHead(a, p);
      RankHead(b, p);
      var q := b[0].priority;
      RankHead(a, q);
      RankHead(b, q);
      assert p == q;
      assert Rank(a, p)[0] == a[0] && Rank(b, p)[0] == b[0];
      forall priority ensures Rank(a[1..], priority) == Rank(b[1..], priority) {
        assert Rank(a, priority) == Rank(b, priority);
        if priority == p {
          assert Rank(a, p) == [a[0]] + Rank(a[1..], p);
          assert Rank(a, p)[1..] == Rank(a[1..], p);
          assert Rank(b, p)[1..] == Rank(b[1..], p);
        } else {
          assert Rank(a, priority) == Rank(a[1..], priority);
          assert Rank(b, priority) == Rank(b[1..], priority);
        }
      }
      StableSortIsUnique(a[1..], b[1..]);
      assert a == [a[0]] + a[1..];
      assert b == [b[0]] + b[1..];
    }
  }

  lemma {:induction false} InsertThenFilter(p: Provider, s: seq<Provider>, model: string)
    requires Ordered(s)
    ensures Capable(Insert(p, s), model)
         == if p.Serves(model) then Insert(p, Capable(s, model)) else Capable(s, model)
  {
    assert ([p] + s)[1..] == s;
    if s == [] || p.priority <= s[0].priority {
      if Capable(s, model) != [] {
        CapableExactly(s, model);
        assert Capable(s, model)[0] in s;
      }
    } else {
      InsertThenFilter(p, s[1..], model);
      assert Insert(p, s)[1..] == Insert(p, s[1..]);
      assert ([s[0]] + Capable(s[1..], model))[1..] == Capable(s[1..], model);
    }
  }

  /** Sorting everything and then filtering, as the model endpoints do, gives the routing order. */
  lemma {:induction false} FilterAfterSort(registry: seq<Provider>, model: string)
    ensures Capable(ByPriority(registry), model) == SelectProviders(registry, model)
  {
    if registry != [] {
      var rest := registry[1..];
      FilterAfterSort(rest, model);
      ByPriorityKeeps(rest, 0);
      InsertThenFilter(registry[0], ByPriority(rest), model);
      assert ([registry[0]] + Capable(rest, model))[1..] == Capable(rest, model);
    }
  }

  // ---------- list_models, get_model, and the streaming pre-check ----------

  /** The first provider that names `model` in its own list. */
  function FirstListing(providers: seq<Provider>, model: string): Option<Provider> {
    if providers == [] then None
    else if model in providers[0].supportedModels then Some(providers[0])
    else FirstListing(providers[1..], model)
  }

  function FirstWildcard(providers: seq<Provider>): Option<Provider> {
    if providers == [] then None
    else if providers[0].Wildcard() then Some(providers[0])
    else FirstWildcard(providers[1..])
  }

  /** The owner that `GET /v1/models/{id}` names, or `None` for its 404. */
  function ModelOwner(registry: seq<Provider>, model: string): Option<string> {
    var providers := ByPriority(registry);
    match FirstListing(providers, model)
    case Some(p) => Some(p.name)
    case None =>
      match FirstWildcard(providers)
      case Some(p) => Some(p.name)
      case None => None
  }

  lemma {:induction false} FirstListingOf(providers: seq<Provider>, k: nat, model: string)
    requires k < |providers|
    ensures FirstListing(providers[..k + 1], model)
         == match FirstListing(providers[..k], model)
            case Some(p) => Some(p)
            case None => if model in providers[k].supportedModels then Some(providers[k]) else None
  {
    if k == 0 {
      assert providers[..1] == [providers[0]];
      assert providers[..1][1..] == [];
    } else {
      assert providers[..k + 1][1..] == providers[1..][..k];
      assert providers[..k][1..] == providers[1..][..k - 1];
      FirstListingOf(providers[1..], k - 1, model);
    }
  }

  method ListModels(registry: seq<Provider>) returns (owned: map<string, string>)
    ensures forall m :: m in owned <==> FirstListing(ByPriority(registry), m).Some?
    ensures forall m :: m in owned ==> owned[m] == FirstListing(ByPriority(registry), m).value.name
  {
    var providers := ByPriority(registry);
    owned := map[];
    for i := 0 to |providers|
      invariant forall m :: m in owned <==> FirstListing(providers[..i], m).Some?
      invariant forall m :: m in owned ==> owned[m] == FirstListing(providers[..i], m).value.name
    {
      var provider := providers[i];
      ghost var before := owned;
      for j := 0 to |provider.supportedModels|
        invariant forall m :: m in owned <==> m in before || m in provider.supportedModels[..j]
        invariant forall m :: m in owned ==>
          owned[m] == if m in before then before[m] else provider.name
      {
        var model := provider.supportedModels[j];
        if model !in owned {
          owned := owned[model := provider.name];
        }
      }
      assert provider.supportedModels[..|provider.supportedModels|] == provider.supportedModels;
      forall m ensures FirstListing(providers[..i + 1], m)
                    == match FirstListing(providers[..i], m)
                       case Some(p) => Some(p)
                       case None => if m in provider.supportedModels then Some(provider) else None
      {
        FirstListingOf(providers, i, m);
      }
    }
    assert providers[..|providers|] == providers;
  }

  method GetModel(registry: seq<Provider>, model: string) returns (ownedBy: Option<string>)
    ensures ownedBy == ModelOwner(registry, model)
  {
    var providers := ByPriority(registry);
    var owner: Option<string> := None;
    var wildcardOwner: Option<string> := None;
    var i := 0;
    while i < |providers| && owner.None?
      invariant 0 <= i <= |providers|
      invariant owner.None? ==> FirstListing(providers, model) == FirstListing(providers[i..], model)
      invariant owner.None? ==>
        match wildcardOwner
        case Some(name) => FirstWildcard(providers).Some? && FirstWildcard(providers).value.name == name
        case None => FirstWildcard(providers) == FirstWildcard(providers[i..])
      invariant owner.Some? ==> FirstListing(providers, model).Some?
      invariant owner.Some? ==> FirstListing(providers, model).value.name == owner.value
      decreases |providers| - i, owner.None?
    {
      if providers[i].supportedModels == [] {
        if wildcardOwner == None {
          wildcardOwner := Some(providers[i].name);
        }
      } else if model in providers[i].supportedModels {
        owner := Some(providers[i].name);
      }
      assert providers[i..][1..] == providers[i + 1..];
      i := i + 1;
    }
    ownedBy := if owner.Some? then owner else wildcardOwner;
  }

  /** The check made before a stream commits to status 200. */
  method RejectUnknownStreamingModel(registry: seq<Provider>, model: string) returns (rejected: bool)
    ensures rejected <==> SelectProviders(registry, model) == []
  {
    CapableExactly(registry, model);
    SelectionIsStableSort(registry, model, 0);
    rejected := true;
    for i := 0 to |registry|
      invariant rejected <==> forall j :: 0 <= j < i ==> !registry[j].Serves(model)
    {
      if registry[i].supportedModels == [] || model in registry[i].supportedModels {
        rejected := false;
      }
    }
    if SelectProviders(registry, model) != [] {
      assert SelectProviders(registry, model)[0] in registry;
    }
  }

  lemma {:induction false} FirstsExist(providers: seq<Provider>, model: string)
    ensures FirstListing(providers, model).None? && FirstWildcard(providers).None? <==> Capable(providers, model) == []
  {
    if providers != [] {
      FirstsExist(providers[1..], model);
    }
  }

  lemma {:induction false} FirstsSurviveFilter(providers: seq<Provider>, model: string)
    ensures FirstListing(Capable(providers, model), model) == FirstListing(providers, model)
    ensures FirstWildcard(Capable(providers, model)) == FirstWildcard(providers)
  {
    if providers != [] {
      FirstsSurviveFilter(providers[1..], model);
      assert ([providers[0]] + Capable(providers[1..], model))[1..] == Capable(providers[1..], model);
    }
  }

  /** `GET /v1/models/{id}` answers 404 exactly for the models that routing cannot place. */
  lemma NotFoundIffUnrouted(registry: seq<Provider>, model: string)
    ensures ModelOwner(registry, model) == None <==> SelectProviders(registry, model) == []
  {
    FilterAfterSort(registry, model);
    FirstsExist(ByPriority(registry), model);
  }

  /** For a listed model both endpoints name the first provider in routing order that lists it. */
  lemma ListedOwnerIsFirstRouted(registry: seq<Provider>, model: string)
    requires FirstListing(ByPriority(registry), model).Some?
    ensures FirstListing(SelectProviders(registry, model), model) == FirstListing(ByPriority(registry), model)
    ensures ModelOwner(registry, model) == Some(FirstListing(SelectProviders(registry, model), model).value.name)
  {
    FilterAfterSort(registry, model);
    FirstsSurviveFilter(ByPriority(registry), model);
  }

  /** First means first: what comes before it does not list the model, or is no wildcard. */
  lemma {:induction false} FirstIsFirst(providers: seq<Provider>, model: string)
    ensures FirstListing(providers, model).Some? ==>
      exists i :: 0 <= i < |providers| && FirstListing(providers, model) == Some(providers[i])
        && model in providers[i].supportedModels
        && forall j :: 0 <= j < i ==> model !in providers[j].supportedModels
    ensures FirstWildcard(providers).Some? ==>
      exists i :: 0 <= i < |providers| && FirstWildcard(providers) == Some(providers[i])
        && providers[i].supportedModels == []
        && forall j :: 0 <= j < i ==> providers[j].supportedModels != []
  {
    if providers != [] {
      FirstIsFirst(providers[1..], model);
      if model in providers[0].supportedModels {
        assert FirstListing(providers, model) == Some(providers[0]);
      } else if FirstListing(providers, model).Some? {
        var i :| 0 <= i < |providers[1..]| && FirstListing(providers[1..], model) == Some(providers[1..][i])
          && model in providers[1..][i].supportedModels
          && forall j :: 0 <= j < i ==> model !in providers[1..][j].supportedModels;
        assert providers[i + 1] == providers[1..][i];
        assert forall j :: 0 < j <= i ==> providers[j] == providers[1..][j - 1];
      }
      if providers[0].supportedModels == [] {
        assert FirstWildcard(providers) == Some(providers[0]);
      } else if FirstWildcard(providers).Some? {
        var i :| 0 <= i < |providers[1..]| && FirstWildcard(providers[1..]) == Some(providers[1..][i])
          && providers[1..][i].supportedModels == []
          && forall j :: 0 <= j < i ==> providers[1..][j].supportedModels != [];
        assert providers[i + 1] == providers[1..][i];
        assert forall j :: 0 < j <= i ==> providers[j] == providers[1..][j - 1];
      }
    }
  }

  ghost predicate DistinctNames(providers: seq<Provider>) {
    forall p, q :: p in providers && q in providers && p.name == q.name ==> p == q
  }

  lemma {:induction false} FirstIsMember(providers: seq<Provider>, model: string)
    ensures FirstListing(providers, model).Some? ==>
      FirstListing(providers, model).value in providers && model in FirstListing(providers, model).value.supportedModels
    ensures FirstListing(providers, model).None? ==> forall p :: p in providers ==> model !in p.supportedModels
    ensures FirstWildcard(providers).Some? ==>
      FirstWildcard(providers).value in providers && FirstWildcard(providers).value.Wildcard()
  {
    if providers != [] {
      FirstIsMember(providers[1..], model);
    }
  }

  /**
   * The endpoint's promise to name "who in fact serves the model" holds exactly when the provider
   * that routing tries first lists the model itself, or no provider lists it: a wildcard in front
   * of an explicit provider is tried first, yet the explicit one is named.
   */
  lemma OwnerIsTriedFirst(registry: seq<Provider>, model: string)
    requires DistinctNames(registry)
    requires SelectProviders(registry, model) != []
    ensures ModelOwner(registry, model) == Some(SelectProviders(registry, model)[0].name)
       <==> model in SelectProviders(registry, model)[0].supportedModels
            || forall p :: p in registry ==> model !in p.supportedModels
  {
    var routed := SelectProviders(registry, model);
    FilterAfterSort(registry, model);
    FirstsSurviveFilter(ByPriority(registry), model);
    ByPriorityKeeps(registry, 0);
    SelectionIsStableSort(registry, model, 0);
    FirstIsMember(routed, model);
    FirstIsMember(ByPriority(registry), model);
    assert routed[0] in registry;
  }

  /** The discrepancy in one instance: the wildcard is tried first and the other provider is named. */
  lemma OwnerNotTriedFirst()
    ensures
      var wildcard := Provider("local", [], 0, 30.0, map[]);
      var listed := Provider("openai", ["gpt-4o"], 1, 30.0, map[]);
      SelectProviders([wildcard, listed], "gpt-4o") == [wildcard, listed]
      && ModelOwner([wildcard, listed], "gpt-4o") == Some("openai")
  {
    var wildcard := Provider("local", [], 0, 30.0, map[]);
    var listed := Provider("openai", ["gpt-4o"], 1, 30.0, map[]);
    var all := [wildcard, listed];
    assert all[1..] == [listed] && [listed][1..] == [];
    assert "gpt-4o" in listed.supportedModels;
    assert Capable([listed], "gpt-4o") == [listed];
    assert Capable(all, "gpt-4o") == [wildcard] + [listed] == all;
    assert ByPriority([listed]) == [listed];
    assert ByPriority(all) == all;
    assert FirstListing([listed], "gpt-4o") == Some(listed);
  }
}

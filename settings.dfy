/**
 * The linked-accounts settings page: the list of linked providers held as page state,
 * how loading and unlinking update that state, which of the known providers are shown
 * as not connected, when the unlink button is disabled, and the labels each row shows.
 * The two backend calls (`getLinkedProviders`, `unlinkProvider`) are not part of this
 * model; their outcome is passed to the methods that await them.
 */
module Settings {
  import opened Wrappers

  /** One linked authentication account, as the backend lists it. */
  datatype LinkedProvider = LinkedProvider(
    id: int,
    provider: string,
    providerUserId: string,
    email: Option<string>,
    displayName: Option<string>)

  const PROVIDER_LABELS: map<string, string> := map["telegram" := "Telegram", "google" := "Google", "apple" := "Apple"]
  const ALL_PROVIDERS: seq<string> := ["google", "apple", "telegram"]
  const LOAD_FAILED: string := "Failed to load linked providers"
  const UNLINK_FAILED: string := "Failed to unlink provider"

  /** How the awaited `unlinkProvider(id)` ended. */
  datatype UnlinkOutcome =
    | Unlinked
    | ThrewError(message: string)  // an `Error`, whose `message` is shown
    | ThrewNonError                // any other thrown value

  /** `a` is `b` with some elements removed, the rest kept in order. */
  predicate Subsequence<T(==)>(a: seq<T>, b: seq<T>)
    decreases |b|
  {
    if |a| == 0 then true
    else if |b| == 0 then false
    else if a[0] == b[0] then Subsequence(a[1..], b[1..])
    else Subsequence(a, b[1..])
  }

  /** `prev.filter((p) => p.id !== id)`. */
  function WithoutId(ps: seq<LinkedProvider>, id: int): (r: seq<LinkedProvider>)
    ensures forall p :: p in r <==> p in ps && p.id != id
    ensures |r| <= |ps|
  {
    if |ps| == 0 then []
    else if ps[0].id != id then [ps[0]] + WithoutId(ps[1..], id)
    else WithoutId(ps[1..], id)
  }

  /** Ids of a provider list. */
  function Ids(ps: seq<LinkedProvider>): (r: set<int>)
    ensures forall p :: p in ps ==> p.id in r
    ensures forall i :: i in r ==> exists p :: p in ps && p.id == i
  {
    set p | p in ps :: p.id
  }

  /** How many listed accounts carry `id`. */
  function IdCount(ps: seq<LinkedProvider>, id: int): (n: nat)
    ensures n <= |ps|
    ensures n == 0 <==> id !in Ids(ps)
  {
    if |ps| == 0 then 0
    else (if ps[0].id == id then 1 else 0) + IdCount(ps[1..], id)
  }

  /** No two listed accounts share an id. */
  predicate UniqueIds(ps: seq<LinkedProvider>)
  {
    forall i, j :: 0 <= i < j < |ps| ==> ps[i].id != ps[j].id
  }

  /** Removing by id keeps the other accounts in their original order. */
  lemma {:induction false} WithoutIdKeepsOrder(ps: seq<LinkedProvider>, id: int)
    ensures Subsequence(WithoutId(ps, id), ps)
    decreases |ps|
  {
    if |ps| > 0 {
      WithoutIdKeepsOrder(ps[1..], id);
      if ps[0].id != id {
        assert WithoutId(ps, id)[0] == ps[0];
        assert WithoutId(ps, id)[1..] == WithoutId(ps[1..], id);
      } else {
        var r := WithoutId(ps, id);
        if |r| > 0 {
          assert r[0] in ps && r[0].id != id;
        }
      }
    }
  }

  /** Removing by id drops exactly the accounts carrying that id. */
  lemma {:induction false} WithoutIdLength(ps: seq<LinkedProvider>, id: int)
    ensures |WithoutId(ps, id)| == |ps| - IdCount(ps, id)
    decreases |ps|
  {
    if |ps| > 0 {
      WithoutIdLength(ps[1..], id);
    }
  }

  /** A listed id occurs once when ids are unique. */
  lemma {:induction false} UniqueIdCount(ps: seq<LinkedProvider>, id: int)
    requires UniqueIds(ps) && id in Ids(ps)
    ensures IdCount(ps, id) == 1
    decreases |ps|
  {
    assert UniqueIds(ps[1..]) by {
      forall i, j | 0 <= i < j < |ps[1..]|
        ensures ps[1..][i].id != ps[1..][j].id
      {
        assert ps[1..][i] == ps[i + 1] && ps[1..][j] == ps[j + 1];
      }
    }
    if ps[0].id != id {
      var p :| p in ps && p.id == id;
      assert p in ps[1..] by {
        assert p != ps[0];
      }
      UniqueIdCount(ps[1..], id);
    }
  }

  /** The unlink button is disabled while at most one account is linked. */
  predicate UnlinkDisabled(ps: seq<LinkedProvider>)
  {
    |ps| <= 1
  }

  /**
   * An unlink started from the page (button enabled, on a listed account) removes one
   * account when ids are unique, so at least one linked account remains.
   */
  lemma UnlinkFromPageLeavesOne(ps: seq<LinkedProvider>, id: int)
    requires UniqueIds(ps) && !UnlinkDisabled(ps) && id in Ids(ps)
    ensures |WithoutId(ps, id)| == |ps| - 1
    ensures |WithoutId(ps, id)| >= 1
  {
    WithoutIdLength(ps, id);
    UniqueIdCount(ps, id);
  }

  /** `providers.map((p) => p.provider)`. */
  function Names(ps: seq<LinkedProvider>): (r: seq<string>)
    ensures |r| == |ps|
    ensures forall k :: 0 <= k < |ps| ==> r[k] == ps[k].provider
  {
    if |ps| == 0 then [] else [ps[0].provider] + Names(ps[1..])
  }

  /** `all.filter((p) => !linked.includes(p))`. */
  function NotLinked(all: seq<string>, linked: seq<string>): (r: seq<string>)
    ensures forall n :: n in r <==> n in all && n !in linked
  {
    if |all| == 0 then []
    else if all[0] !in linked then [all[0]] + NotLinked(all[1..], linked)
    else NotLinked(all[1..], linked)
  }

  /** The known providers with no linked account, offered as not connected. */
  function UnlinkedProviders(ps: seq<LinkedProvider>): (r: seq<string>)
    ensures forall n :: n in r <==> n in ALL_PROVIDERS && n !in Names(ps)
  {
    NotLinked(ALL_PROVIDERS, Names(ps))
  }

  /** Filtering keeps the surviving names in their original order. */
  lemma {:induction false} NotLinkedKeepsOrder(all: seq<string>, linked: seq<string>)
    ensures Subsequence(NotLinked(all, linked), all)
    decreases |all|
  {
    if |all| > 0 {
      NotLinkedKeepsOrder(all[1..], linked);
      var r := NotLinked(all, linked);
      if all[0] !in linked {
        assert r[0] == all[0] && r[1..] == NotLinked(all[1..], linked);
      } else if |r| > 0 {
        assert r[0] != all[0];
      }
    }
  }

  /**
   * The unlinked list is exactly the known providers that no account is linked to: it
   * never names a linked provider, together with the linked names it covers every known
   * provider, and it keeps their order.
   */
  lemma UnlinkedProvidersExactly(ps: seq<LinkedProvider>)
    ensures forall n :: n in UnlinkedProviders(ps) <==>
      n in ALL_PROVIDERS && forall p :: p in ps ==> p.provider != n
    ensures forall n :: n in UnlinkedProviders(ps) ==> n !in Names(ps)
    ensures forall n :: n in ALL_PROVIDERS ==> n in UnlinkedProviders(ps) || n in Names(ps)
    ensures Subsequence(UnlinkedProviders(ps), ALL_PROVIDERS)
  {
    NotLinkedKeepsOrder(ALL_PROVIDERS, Names(ps));
    var names := Names(ps);
    forall n
      ensures n in names <==> exists p :: p in ps && p.provider == n
    {
      if n in names {
        var k :| 0 <= k < |names| && names[k] == n;
        assert ps[k] in ps;
      }
      if exists p :: p in ps && p.provider == n {
        var p :| p in ps && p.provider == n;
        var k :| 0 <= k < |ps| && ps[k] == p;
        assert names[k] == n;
      }
    }
  }

  /**
   * Unlinking the only account of a known provider makes that provider show as not
   * connected again.
   */
  lemma UnlinkOffersProviderAgain(ps: seq<LinkedProvider>, id: int, name: string)
    requires name in ALL_PROVIDERS
    requires forall p :: p in ps && p.provider == name ==> p.id == id
    ensures name in UnlinkedProviders(WithoutId(ps, id))
  {
    UnlinkedProvidersExactly(WithoutId(ps, id));
  }

  /** The row heading: `PROVIDER_LABELS[name] || name`. */
  function Label(name: string): (r: string)
    ensures name in PROVIDER_LABELS ==> r == PROVIDER_LABELS[name]
    ensures name !in PROVIDER_LABELS ==> r == name
  {
    if name in PROVIDER_LABELS && PROVIDER_LABELS[name] != "" then PROVIDER_LABELS[name] else name
  }

  /** The three known providers have a capitalised label; any other name shows as it is. */
  lemma KnownLabels()
    ensures Label("google") == "Google" && Label("apple") == "Apple" && Label("telegram") == "Telegram"
    ensures forall n :: n in ALL_PROVIDERS ==> n in PROVIDER_LABELS
  {
  }

  /** `s || next` over a nullable string: `null` and `""` are falsy. */
  function OrString(s: Option<string>, next: string): (r: string)
    ensures s.Some? && s.value != "" ==> r == s.value
    ensures (s.None? || s == Some("")) ==> r == next
  {
    if s.Some? && s.value != "" then s.value else next
  }

  /** The row's secondary line: the first non-empty of display name, email and provider user id. */
  function SecondaryText(p: LinkedProvider): (r: string)
    ensures p.displayName.Some? && p.displayName.value != "" ==> r == p.displayName.value
    ensures (p.displayName.None? || p.displayName == Some("")) && p.email.Some? && p.email.value != "" ==>
      r == p.email.value
    ensures (p.displayName.None? || p.displayName == Some("")) && (p.email.None? || p.email == Some("")) ==>
      r == p.providerUserId
  {
    OrString(p.displayName, OrString(p.email, p.providerUserId))
  }

  /** The page state: the linked accounts, whether the first load is pending, and the error banner. */
  class SettingsPage {
    var providers: seq<LinkedProvider>
    var loading: bool
    var error: Option<string>

    /** The state before the first load: no accounts, loading, no error. */
    constructor ()
      ensures providers == [] && loading && error == None
    {
      providers := [];
      loading := true;
      error := None;
    }

    /**
     * `fetchProviders`, given how `getLinkedProviders()` ended (`None` when it threw):
     * on success the list is replaced, on failure the list is kept and the load error
     * is shown; either way loading ends.
     */
    method FetchProviders(result: Option<seq<LinkedProvider>>)
      modifies this
      ensures !loading
      ensures result.Some? ==> providers == result.value && error == old(error)
      ensures result.None? ==> providers == old(providers) && error == Some(LOAD_FAILED)
    {
      if result.Some? {
        providers := result.value;
      } else {
        error := Some(LOAD_FAILED);
      }
      loading := false;
    }

    /**
     * `handleUnlink(id)`, given how `unlinkProvider(id)` ended: on success the account is
     * dropped; on failure the list is kept and the error's message, or the generic unlink
     * message for a thrown non-`Error`, is shown.
     */
    method HandleUnlink(id: int, outcome: UnlinkOutcome)
      modifies this
      ensures loading == old(loading)
      ensures outcome.Unlinked? ==> providers == WithoutId(old(providers), id) && error == old(error)
      ensures outcome.ThrewError? ==> providers == old(providers) && error == Some(outcome.message)
      ensures outcome.ThrewNonError? ==> providers == old(providers) && error == Some(UNLINK_FAILED)
    {
      match outcome {
        case Unlinked =>
          providers := WithoutId(providers, id);
        case ThrewError(message) =>
          error := Some(message);
        case ThrewNonError =>
          error := Some(UNLINK_FAILED);
      }
    }
  }

  /** After a successful unlink no account with that id is listed and every other one still is. */
  method UnlinkRemovesOnlyThatId(page: SettingsPage, id: int)
    modifies page
    ensures id !in Ids(page.providers)
    ensures forall p :: p in old(page.providers) && p.id != id ==> p in page.providers
    ensures Subsequence(page.providers, old(page.providers))
  {
    page.HandleUnlink(id, Unlinked);
    WithoutIdKeepsOrder(old(page.providers), id);
  }
}

/** The state of the Uniswap V3 positions view (pages/lppositionV3.js) and
    its handlers: fetchData, the reconciliation of the displayed list, the
    "show more" button, resetUI, the "check for connected wallet" button and
    the two effects. Each handler runs to completion: an awaited request is
    its `response` parameter. */
module PositionsView {
  import opened PositionData
  import opened JsText
  import opened Chains
  import opened Pagination

  const Title: string := "Uniswap LP Position V3"
  const MissingAddressMessage: string := "Please enter a address"
  const InvalidAddressMessage: string := "Please enter a valid address"
  const UnsupportedChainMessage: string := "Supports only Ethereum and Polygon"
  const UnexpectedErrorTitle: string := "Unexpected error"

  function EmptyResultMessage(chainId: string, user: string): string {
    "No UNISWAP-V3 LP NFTs found on " + ChainLabel(chainId) + " chain for " + user
  }

  /** Which way fetchData goes. Only the last two reach resetUI and so
      replace the fetched list; only Requested issues a request. */
  datatype FetchOutcome =
    | MissingAddress
    | SameAddress
    | InvalidAddress
    | UnsupportedChain
    | Requested(path: string)
  {
    predicate ReplacesList() { UnsupportedChain? || Requested? }
  }

  /** The checks of fetchData in their order: presence of the address, the
      case-insensitive comparison with the shown address (before trimming,
      and without looking at the chain), the length of the normalised
      address, and the chain. */
  function Route(address: Option<string>, chainId: Option<string>, showing: string): (r: FetchOutcome)
    ensures r == MissingAddress <==> address.None? || address.value == ""
    ensures r == SameAddress <==> address.Some? && address.value != "" && Lower(address.value) == Lower(showing)
    ensures r.ReplacesList() <==>
      address.Some? && address.value != "" && Lower(address.value) != Lower(showing)
      && |Normalize(address.value)| == 42
    ensures r.Requested? <==> r.ReplacesList() && IsSupportedChain(chainId)
  {
    match address
    case None => MissingAddress
    case Some(a) =>
      if a == "" then MissingAddress
      else if Lower(a) == Lower(showing) then SameAddress
      else
        var user := Normalize(a);
        if |user| != 42 then InvalidAddress
        else if !IsSupportedChain(chainId) then UnsupportedChain
        else Requested(RequestPath(user, chainId.value))
  }

  /** The request fetchData issues: the normalised address, the position
      manager contract and the chain id, on Ethereum or Polygon only. */
  lemma RequestedPath(a: string, chainId: Option<string>, showing: string)
    requires Route(Some(a), chainId, showing).Requested?
    ensures chainId == Some("0x1") || chainId == Some("0x89")
    ensures Route(Some(a), chainId, showing).path
         == "/api/lpV3/" + Normalize(a) + "/" + PositionManager + "/" + chainId.value
  {
    SupportedChainsAre(chainId);
  }

  /** Submitting again the address being shown is skipped, in any letter
      case and on any chain, when it has no white space at its ends. */
  lemma {:induction false} RefetchOfShownAddressSkipped(a: string, chainId: Option<string>)
    requires a != [] && !IsJsWhitespace(a[0]) && !IsJsWhitespace(a[|a| - 1])
    ensures Route(Some(a), chainId, Normalize(a)) == SameAddress
  {
    LowerAt(a, 0);
    LowerAt(a, |a| - 1);
    LowerCharKeepsWhitespace(a[0]);
    LowerCharKeepsWhitespace(a[|a| - 1]);
    TrimKeepsTrimmed(Lower(a));
    LowerIdempotent(a);
  }

  /** With white space in front, the same address is not recognised: the
      untrimmed input is compared with the trimmed address on show. */
  lemma {:induction false} PaddedRefetchNotSkipped(a: string, chainId: Option<string>)
    requires |a| > 0 && IsJsWhitespace(a[0]) && |Normalize(a)| == 42
    ensures Route(Some(a), chainId, Normalize(a)) != SameAddress
  {
    var n := Normalize(a);
    TrimSpec(Lower(a));
    LowerAt(a, 0);
    LowerAt(n, 0);
    LowerCharKeepsWhitespace(a[0]);
    LowerCharKeepsWhitespace(n[0]);
    assert Lower(a)[0] != Lower(n)[0];
  }

  /** Only the address on show is skipped: an address whose stored form
      differs is never taken for it. */
  lemma {:induction false} NewAddressNotSkipped(shown: string, a: string, chainId: Option<string>)
    requires Normalize(shown) != Normalize(a)
    ensures Route(Some(a), chainId, Normalize(shown)) != SameAddress
  {
    NormalizeIdempotent(shown);
  }

  /** The list setNFTs receives once a request was issued: resetUI's empty
      list after an exception, otherwise `data.result` as it is. */
  function ListAfter(response: Response): Option<seq<Item>> {
    match response
    case Threw(_) => Some([])
    case Received(result) => result
  }

  /** The notifications a request adds. */
  function NoticesAfter(response: Response, chainId: string, user: string): seq<Notification> {
    match response
    case Threw(e) => [Notification(Error, e, UnexpectedErrorTitle)]
    case Received(Some(result)) =>
      if |result| == 0 then [Notification(Warning, EmptyResultMessage(chainId, user), Title)] else []
    case Received(None) => []
  }

  /** The target of the account/chain effect: the override when it is set,
      otherwise the connected account (None: nothing to fetch). */
  function EffectTarget(override: Option<string>, account: Option<string>): Option<string> {
    if override.None? || override.value == "" then account else override
  }

  function ListOf(nfts: Option<seq<Item>>): seq<Item> {
    match nfts
    case None => []
    case Some(s) => s
  }

  /** The fetched list, the shown address, the spinner flag and the
      notifications dispatched so far. */
  datatype Session = Session(nfts: Option<seq<Item>>, showingAddress: string, loading: bool,
                             notifications: seq<Notification>)

  /** What fetchData leaves of a session, for each way it can go. */
  function AfterFetch(s: Session, address: Option<string>, chainId: Option<string>, response: Response): Session
  {
    match Route(address, chainId, s.showingAddress)
    case MissingAddress =>
      s.(loading := false, notifications := s.notifications + [Notification(Error, MissingAddressMessage, Title)])
    case SameAddress => s
    case InvalidAddress =>
      s.(notifications := s.notifications + [Notification(Error, InvalidAddressMessage, Title)])
    case UnsupportedChain =>
      Session(Some([]), Normalize(address.value), false,
              s.notifications + [Notification(Error, UnsupportedChainMessage, Title)])
    case Requested(_) =>
      var user := Normalize(address.value);
      Session(ListAfter(response), user, false, s.notifications + NoticesAfter(response, chainId.value, user))
  }

  /** Once a fetch has replaced the list, the override holds the address
      on show, so the account/chain effect that follows routes to the
      same-address skip for any account and any chain: switching the
      wallet from an unsupported chain to a supported one does not fetch. */
  lemma ChainChangeAfterFetchSkipped(s: Session, a: string, chainId: Option<string>, response: Response,
                                     account: Option<string>, newChainId: Option<string>)
    requires Route(Some(a), chainId, s.showingAddress).ReplacesList()
    ensures var shown := AfterFetch(s, Some(a), chainId, response).showingAddress;
      Route(EffectTarget(Some(shown), account), newChainId, shown) == SameAddress
  {
  }

  /** A call that makes no request and replaces nothing keeps the list
      and the address on show; the same-address skip keeps everything. */
  lemma SkipsKeepSession(s: Session, address: Option<string>, chainId: Option<string>, response: Response)
    ensures !Route(address, chainId, s.showingAddress).ReplacesList() ==>
      && AfterFetch(s, address, chainId, response).nfts == s.nfts
      && AfterFetch(s, address, chainId, response).showingAddress == s.showingAddress
    ensures Route(address, chainId, s.showingAddress) == SameAddress ==> AfterFetch(s, address, chainId, response) == s
  {
  }

  /** fetchData on its own never leaves the spinner on once it has
      completed: `loading` is false after every call that reports a missing
      address or replaces the list, and no call raises it. */
  lemma FetchNeverRaisesLoading(s: Session, address: Option<string>, chainId: Option<string>, response: Response)
    ensures AfterFetch(s, address, chainId, response).loading ==> s.loading
    ensures Route(address, chainId, s.showingAddress).ReplacesList() ==> !AfterFetch(s, address, chainId, response).loading
    ensures Route(address, chainId, s.showingAddress) == MissingAddress ==> !AfterFetch(s, address, chainId, response).loading
  {
  }

  class View {
    /** NFTs: the fetched list; None after a response whose `result` was absent. */
    var nfts: Option<seq<Item>>
    /** displayNFTs: the part of the list on screen. */
    var displayNfts: seq<Item>
    var page: nat
    var showingAddress: string
    var loading: bool
    /** The module-level globalUserAddress, written by this view. */
    var globalUserAddress: Option<string>
    ghost var notifications: seq<Notification>
    /** Pages before this one were never appended since the list was last replaced. */
    ghost var firstPage: nat

    ghost predicate Valid()
      reads this
    {
      1 <= page && firstPage < page
    }

    /** Between events: the display is pages firstPage+1 .. page of the list. */
    ghost predicate Settled()
      reads this
    {
      Valid() && displayNfts == Window(ListOf(nfts), firstPage, page)
    }

    /** After the list or the page changed, before the display effect ran. */
    ghost predicate Pending()
      reads this
    {
      Valid() && displayNfts == Window(ListOf(nfts), firstPage, page - 1)
    }

    /** The part of the state fetchData decides. */
    ghost function Snapshot(): Session
      reads this`nfts, this`showingAddress, this`loading, this`notifications
    {
      Session(nfts, showingAddress, loading, notifications)
    }

    constructor (override: Option<string>)
      ensures Settled()
      ensures nfts == Some([]) && displayNfts == [] && page == 1
      ensures showingAddress == "" && !loading && globalUserAddress == override
      ensures notifications == []
    {
      nfts := Some([]);
      displayNfts := [];
      page := 1;
      showingAddress := "";
      loading := false;
      globalUserAddress := override;
      notifications := [];
      firstPage := 0;
    }

    /** handleSettingDisplayNFTs. Only the display effect calls it, and
        only with a list present. */
    method HandleSettingDisplayNfts()
      requires Valid() && nfts.Some?
      modifies this`displayNfts
      ensures displayNfts == Reconcile(nfts.value, old(displayNfts), page)
      ensures old(Pending()) ==> Settled()
    {
      if |nfts.value| > |displayNfts| {
        var startingIndex := (page - 1) * 10;
        displayNfts := displayNfts + nfts.value[Min(startingIndex, |nfts.value|)..Min(startingIndex + 10, |nfts.value|)];
      }
      if old(Pending()) {
        ReconcileSettles(nfts.value, firstPage, page);
      }
    }

    /** The effect that runs after NFTs or page changed: skipped while the
        list is absent or empty. */
    method DisplayEffect()
      requires Valid()
      modifies this`displayNfts
      ensures nfts.None? || |nfts.value| < 1 ==> displayNfts == old(displayNfts)
      ensures nfts.Some? && |nfts.value| >= 1 ==> displayNfts == Reconcile(nfts.value, old(displayNfts), page)
      ensures old(Pending()) ==> Settled()
    {
      if nfts.None? || |nfts.value| < 1 {
        return;
      }
      HandleSettingDisplayNfts();
    }

    /** handleShowMoreAction. */
    method HandleShowMoreAction()
      requires Valid()
      modifies this`page
      ensures page == old(page) + 1
      ensures Valid() && (old(Settled()) ==> Pending())
    {
      page := page + 1;
    }

    /** resetUI: empties both lists and stops the spinner; the page counter
        is left as it is, so the display of the next list starts at the
        current page. */
    method ResetUI()
      requires Valid()
      modifies this`nfts, this`displayNfts, this`loading, this`firstPage
      ensures nfts == Some([]) && displayNfts == [] && !loading
      ensures firstPage == page - 1 && Pending()
    {
      nfts := Some([]);
      displayNfts := [];
      loading := false;
      firstPage := page - 1;
    }

    /** fetchData. Returns which way it went; the display list is only
        emptied here, the display effect fills it. */
    method FetchData(address: Option<string>, chainId: Option<string>, response: Response)
      returns (outcome: FetchOutcome)
      requires Valid()
      modifies this
      ensures outcome == Route(address, chainId, old(showingAddress))
      ensures Snapshot() == AfterFetch(old(Snapshot()), address, chainId, response) && page == old(page)
      ensures outcome.ReplacesList() ==> globalUserAddress == Some(showingAddress)
      ensures !outcome.ReplacesList() ==> globalUserAddress == old(globalUserAddress)
      ensures outcome.ReplacesList() ==> |displayNfts| == 0 && firstPage == page - 1 && Pending()
      ensures !outcome.ReplacesList() ==> nfts == old(nfts) && displayNfts == old(displayNfts) && firstPage == old(firstPage)
      ensures page == old(page)
    {
      if address.None? || address.value == "" {
        notifications := notifications + [Notification(Error, MissingAddressMessage, Title)];
        loading := false;
        return MissingAddress;
      } else if Lower(address.value) == Lower(showingAddress) {
        return SameAddress;
      }
      var user := Trim(Lower(address.value));
      if |user| != 42 {
        notifications := notifications + [Notification(Error, InvalidAddressMessage, Title)];
        return InvalidAddress;
      }
      showingAddress := user;
      globalUserAddress := Some(user);
      outcome := RequestPositions(user, chainId, response);
    }

    /** The `try` block of fetchData, entered with the normalised address:
        the chain check, then the request and the handling of its response.
        Every path goes through resetUI. */
    method RequestPositions(user: string, chainId: Option<string>, response: Response)
      returns (outcome: FetchOutcome)
      requires Valid()
      modifies this`nfts, this`displayNfts, this`loading, this`firstPage, this`notifications
      ensures !IsSupportedChain(chainId) ==>
        && outcome == UnsupportedChain && nfts == Some([]) && !loading
        && notifications == old(notifications) + [Notification(Error, UnsupportedChainMessage, Title)]
      ensures IsSupportedChain(chainId) ==>
        && outcome == Requested(RequestPath(user, chainId.value))
        && nfts == ListAfter(response) && !loading
        && notifications == old(notifications) + NoticesAfter(response, chainId.value, user)
      ensures |displayNfts| == 0 && firstPage == page - 1
    {
      if chainId.None? || chainId.value !in ChainIdAddrMap {
        notifications := notifications + [Notification(Error, UnsupportedChainMessage, Title)];
        ResetUI();
        return UnsupportedChain;
      }
      outcome := Requested(RequestPath(user, chainId.value));
      ResetUI();
      loading := true;
      match response {
        case Threw(e) =>
          notifications := notifications + [Notification(Error, e, UnexpectedErrorTitle)];
          ResetUI();
        case Received(result) =>
          if result.Some? && |result.value| <= 0 {
            notifications := notifications + [Notification(Warning, EmptyResultMessage(chainId.value, user), Title)];
            ResetUI();
          } else {
            nfts := result;
            loading := false;
          }
      }
    }

    /** fetchData followed by the display effect, which React runs when the
        call replaced the list. */
    method Fetch(address: Option<string>, chainId: Option<string>, response: Response)
      returns (outcome: FetchOutcome)
      requires Settled()
      modifies this
      ensures Settled()
      ensures outcome == Route(address, chainId, old(showingAddress))
      ensures Snapshot() == AfterFetch(old(Snapshot()), address, chainId, response) && page == old(page)
      ensures outcome.ReplacesList() ==> globalUserAddress == Some(showingAddress)
      ensures !outcome.ReplacesList() ==> globalUserAddress == old(globalUserAddress)
      ensures !outcome.ReplacesList() ==> displayNfts == old(displayNfts)
      ensures outcome.ReplacesList() ==> displayNfts == Window(ListOf(nfts), page - 1, page)
      ensures outcome.ReplacesList() && page == 1 ==> displayNfts == ListOf(nfts)[..Min(10, |ListOf(nfts)|)]
    {
      outcome := FetchData(address, chainId, response);
      if outcome.ReplacesList() {
        ghost var fetched := Snapshot();
        DisplayEffect();
        assert Snapshot() == fetched;
        WindowFromStart(ListOf(nfts), 1);
      }
    }

    /** The "Show more" button: handleShowMoreAction, then the display
        effect for the new page. */
    method ShowMore()
      requires Settled()
      modifies this`page, this`displayNfts
      ensures Settled()
      ensures page == old(page) + 1
      ensures nfts.None? || |nfts.value| < 1 ==> displayNfts == old(displayNfts)
      ensures nfts.Some? && |nfts.value| >= 1 ==> displayNfts == Reconcile(nfts.value, old(displayNfts), page)
      ensures firstPage == 0 ==> displayNfts == ListOf(nfts)[..Min(page * 10, |ListOf(nfts)|)]
    {
      HandleShowMoreAction();
      DisplayEffect();
      WindowFromStart(ListOf(nfts), page);
    }

    /** onOwnWalletButtonClick: clears the override, then fetches the
        connected account. */
    method OnOwnWalletButtonClick(account: Option<string>, chainId: Option<string>, response: Response)
      returns (outcome: FetchOutcome)
      requires Settled()
      modifies this
      ensures Settled()
      ensures outcome == Route(account, chainId, old(showingAddress))
      ensures Snapshot() == AfterFetch(old(Snapshot()), account, chainId, response) && page == old(page)
      ensures outcome.ReplacesList() ==> globalUserAddress == Some(showingAddress)
      ensures !outcome.ReplacesList() ==> globalUserAddress == Some("")
      ensures !outcome.ReplacesList() ==> displayNfts == old(displayNfts)
      ensures outcome.ReplacesList() ==> displayNfts == Window(ListOf(nfts), page - 1, page)
    {
      globalUserAddress := Some("");
      outcome := Fetch(account, chainId, response);
    }

    /** The effect that runs when the wallet account or the chain changes:
        fetches the override when it is set, else the account, and does
        nothing when neither is there. */
    method AccountChainEffect(account: Option<string>, chainId: Option<string>, response: Response)
      returns (outcome: Option<FetchOutcome>)
      requires Settled()
      modifies this
      ensures Settled()
      ensures EffectTarget(old(globalUserAddress), account).None? ==> outcome.None? && unchanged(this)
      ensures EffectTarget(old(globalUserAddress), account).Some? ==>
        outcome == Some(Route(EffectTarget(old(globalUserAddress), account), chainId, old(showingAddress)))
      ensures outcome.Some? ==>
        Snapshot() == AfterFetch(old(Snapshot()), EffectTarget(old(globalUserAddress), account), chainId, response)
      ensures page == old(page)
      ensures outcome.Some? && outcome.value.ReplacesList() ==>
        globalUserAddress == Some(showingAddress) && displayNfts == Window(ListOf(nfts), page - 1, page)
      ensures outcome.None? || !outcome.value.ReplacesList() ==>
        globalUserAddress == old(globalUserAddress) && displayNfts == old(displayNfts)
    {
      var target: Option<string>;
      if globalUserAddress.None? || globalUserAddress.value == "" {
        if account.None? {
          return None;
        }
        target := account;
      } else {
        target := globalUserAddress;
      }
      assert target == EffectTarget(globalUserAddress, account);
      var o := Fetch(target, chainId, response);
      outcome := Some(o);
    }
  }
}

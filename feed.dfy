/** The selection state machine of the RickAndMortyFeed component. The six
    `useState` slots are the fields of a class; each asynchronous handler is
    split at its `await` into a synchronous start and a completion that
    receives the settled promise. The pure functions on FeedState say what
    each step does to the slots; the class's methods are tied to them. */
module Feed {
  import opened ApiTypes
  import Api

  const EpisodesError := "Failed to load episodes"
  const CharactersError := "Failed to load characters"
  const ClickError := "Failed to load episode characters"

  /** The six state slots. `characters` is None when a character page without
      `results` has stored `undefined` in the slot. */
  datatype FeedState = FeedState(
    episodes: seq<Episode>,
    characters: Option<seq<Character>>,
    selectedEpisodeId: Option<int>,
    loading: bool,
    charactersLoading: bool,
    error: Option<string>)

  /** The `useState` initial values. */
  const Initial := FeedState([], Some([]), None, true, false, None)

  /** The fetch a handler awaits: `fetchCharacters(page)` or
      `fetchEpisodeCharacters(urls)`. */
  datatype Request = CharacterPage(page: int) | EpisodeCharacters(urls: seq<string>)

  /** `fetchCharacters()` with its default page. */
  const InitialRequest := CharacterPage(Api.DefaultPage)

  /** Runs a request against the network and settles it as the component
      sees it. */
  function Perform(base: string, pages: PageServer<Character>, bulk: BulkServer, req: Request)
    : (r: Call<Option<seq<Character>>>)
    ensures |r.requests| <= 1
    ensures r.outcome.Rejected? ==> |r.requests| == 1
    ensures req.CharacterPage? ==> r.requests == [Api.PageUrl(base, req.page)]
  {
    match req
    case CharacterPage(p) => Api.FetchCharacters(base, p, pages)
    case EpisodeCharacters(urls) =>
      var c := Api.FetchEpisodeCharacters(base, urls, bulk);
      Call(c.requests, match c.outcome case Resolved(cs) => Resolved(Some(cs)) case Rejected(e) => Rejected(e))
  }

  // ---------------------------------------------------------------------
  // loadEpisodes
  // ---------------------------------------------------------------------

  /** loadEpisodes after `fetchEpisodes()` settles. */
  function EpisodesLoaded(s: FeedState, o: Outcome<seq<Episode>>): (t: FeedState)
    ensures t.(episodes := s.episodes, error := s.error) == s
    ensures t.error != s.error ==> t.error == Some(EpisodesError)
  {
    match o
    case Resolved(eps) => s.(episodes := eps)
    case Rejected(_) => s.(error := Some(EpisodesError))
  }

  // ---------------------------------------------------------------------
  // loadInitialCharacters
  // ---------------------------------------------------------------------

  /** loadInitialCharacters up to its `await`. */
  function InitialLoadStarted(s: FeedState): (t: FeedState)
    ensures t.loading
    ensures t.(loading := s.loading) == s
  {
    s.(loading := true)
  }

  /** loadInitialCharacters after its fetch settles, through `finally`. */
  function InitialLoadCompleted(s: FeedState, o: Outcome<Option<seq<Character>>>): (t: FeedState)
    ensures !t.loading
    ensures t.(characters := s.characters, error := s.error, loading := s.loading) == s
    ensures (t.error == None) <==> o.Resolved?
  {
    match o
    case Resolved(cs) => s.(characters := cs, error := None, loading := false)
    case Rejected(_) => s.(error := Some(CharactersError), loading := false)
  }

  // ---------------------------------------------------------------------
  // handleEpisodeClick
  // ---------------------------------------------------------------------

  /** handleEpisodeClick up to its `await`. */
  function ClickStarted(s: FeedState, e: Episode): (t: FeedState)
    ensures t.charactersLoading
    ensures t.selectedEpisodeId != s.selectedEpisodeId
    ensures t.(selectedEpisodeId := s.selectedEpisodeId, charactersLoading := s.charactersLoading) == s
  {
    if s.selectedEpisodeId == Some(e.id) then
      s.(selectedEpisodeId := None, charactersLoading := true)
    else
      s.(selectedEpisodeId := Some(e.id), charactersLoading := true)
  }

  /** The fetch handleEpisodeClick awaits. */
  function ClickRequest(s: FeedState, e: Episode): (r: Request)
    ensures r.CharacterPage? <==> s.selectedEpisodeId == Some(e.id)
    ensures r.CharacterPage? ==> r == InitialRequest
    ensures r.EpisodeCharacters? ==> r.urls == e.characters
  {
    if s.selectedEpisodeId == Some(e.id) then InitialRequest else EpisodeCharacters(e.characters)
  }

  /** handleEpisodeClick after its fetch settles, through `finally`. */
  function ClickCompleted(s: FeedState, o: Outcome<Option<seq<Character>>>): (t: FeedState)
    ensures !t.charactersLoading
    ensures t.(characters := s.characters, error := s.error, charactersLoading := s.charactersLoading) == s
    ensures (t.error == None) <==> o.Resolved?
  {
    match o
    case Resolved(cs) => s.(characters := cs, error := None, charactersLoading := false)
    case Rejected(_) => s.(error := Some(ClickError), charactersLoading := false)
  }

  // ---------------------------------------------------------------------
  // Properties of the transitions
  // ---------------------------------------------------------------------

  /** Clicking the selected episode clears the selection before any fetch,
      turns the character spinner on, and asks for character page 1. */
  lemma ClickOnSelectedDeselects(s: FeedState, e: Episode)
    requires s.selectedEpisodeId == Some(e.id)
    ensures ClickStarted(s, e).selectedEpisodeId == None
    ensures ClickStarted(s, e).charactersLoading
    ensures ClickRequest(s, e) == CharacterPage(1)
    ensures ClickStarted(s, e).(selectedEpisodeId := s.selectedEpisodeId, charactersLoading := s.charactersLoading) == s
  {
  }

  /** Clicking another episode selects it at once, before its characters
      arrive, and asks for exactly that episode's characters. */
  lemma ClickOnOtherSelectsOptimistically(s: FeedState, e: Episode)
    requires s.selectedEpisodeId != Some(e.id)
    ensures ClickStarted(s, e).selectedEpisodeId == Some(e.id)
    ensures ClickStarted(s, e).charactersLoading
    ensures ClickStarted(s, e).characters == s.characters
    ensures ClickRequest(s, e) == EpisodeCharacters(e.characters)
    ensures ClickStarted(s, e).(selectedEpisodeId := s.selectedEpisodeId, charactersLoading := s.charactersLoading) == s
  {
  }

  /** Selecting an episode and clicking it again returns the selection to
      none, whether or not the first fetch has settled in between. */
  lemma ToggleReturnsToNone(s: FeedState, e: Episode, o: Outcome<Option<seq<Character>>>)
    requires s.selectedEpisodeId != Some(e.id)
    ensures ClickStarted(ClickStarted(s, e), e).selectedEpisodeId == None
    ensures ClickStarted(ClickCompleted(ClickStarted(s, e), o), e).selectedEpisodeId == None
    ensures ClickRequest(ClickCompleted(ClickStarted(s, e), o), e) == InitialRequest
  {
  }

  /** A settled click: on success the character list is replaced wholesale
      and the error cleared; on failure the error is set and the selection
      and the character list keep their values at completion. The spinner
      is off either way; the episodes are untouched. */
  lemma ClickCompletion(s: FeedState, o: Outcome<Option<seq<Character>>>)
    ensures !ClickCompleted(s, o).charactersLoading
    ensures ClickCompleted(s, o).selectedEpisodeId == s.selectedEpisodeId
    ensures ClickCompleted(s, o).episodes == s.episodes
    ensures ClickCompleted(s, o).loading == s.loading
    ensures o.Resolved? ==> ClickCompleted(s, o).characters == o.value && ClickCompleted(s, o).error == None
    ensures o.Rejected? ==> ClickCompleted(s, o).characters == s.characters && ClickCompleted(s, o).error == Some(ClickError)
  {
  }

  /** With overlapping clicks nothing orders the completions: whichever
      settles last decides the character list. */
  lemma LastCompletionWins(s: FeedState, first: Outcome<Option<seq<Character>>>, cs: Option<seq<Character>>)
    ensures ClickCompleted(ClickCompleted(s, first), Resolved(cs)).characters == cs
    ensures !ClickCompleted(ClickCompleted(s, first), Resolved(cs)).charactersLoading
  {
  }

  /** A failed click leaves the optimistic selection in place: no rollback
      to the selection before the click. */
  lemma FailedClickKeepsOptimisticSelection(s: FeedState, e: Episode, err: FetchError)
    ensures var t := ClickCompleted(ClickStarted(s, e), Rejected(err));
      t.selectedEpisodeId == (if s.selectedEpisodeId == Some(e.id) then None else Some(e.id)) &&
      t.characters == s.characters &&
      t.error == Some(ClickError) &&
      !t.charactersLoading
  {
  }

  /** The click handler never writes `episodes` or `loading`; the spinner is
      on right after its start and off right after its completion. */
  lemma ClickLeavesEpisodes(s: FeedState, e: Episode, o: Outcome<Option<seq<Character>>>)
    ensures ClickStarted(s, e).episodes == s.episodes
    ensures ClickCompleted(ClickStarted(s, e), o).episodes == s.episodes
    ensures ClickCompleted(ClickStarted(s, e), o).loading == s.loading
    ensures ClickStarted(s, e).charactersLoading
    ensures !ClickCompleted(ClickStarted(s, e), o).charactersLoading
  {
  }

  /** The episode loader writes `episodes` only on success, and nothing else
      then; on failure it only sets the error. */
  lemma EpisodesLoadedWrites(s: FeedState, o: Outcome<seq<Episode>>)
    ensures o.Resolved? ==> EpisodesLoaded(s, o) == s.(episodes := o.value)
    ensures o.Rejected? ==> EpisodesLoaded(s, o) == s.(error := Some(EpisodesError))
  {
  }

  /** The initial character load turns `loading` on and, whatever the
      outcome, off again; on success it stores the page and clears the error. */
  lemma InitialLoadBracket(s: FeedState, o: Outcome<Option<seq<Character>>>)
    ensures InitialLoadStarted(s).loading
    ensures !InitialLoadCompleted(InitialLoadStarted(s), o).loading
    ensures o.Resolved? ==>
      InitialLoadCompleted(InitialLoadStarted(s), o).characters == o.value &&
      InitialLoadCompleted(InitialLoadStarted(s), o).error == None
    ensures o.Rejected? ==>
      InitialLoadCompleted(InitialLoadStarted(s), o).error == Some(CharactersError) &&
      InitialLoadCompleted(InitialLoadStarted(s), o).characters == s.characters
    ensures InitialLoadCompleted(InitialLoadStarted(s), o).episodes == s.episodes
    ensures InitialLoadCompleted(InitialLoadStarted(s), o).selectedEpisodeId == s.selectedEpisodeId
  {
  }

  /** Deselecting an episode shows, once it succeeds, the same characters as
      the initial load does against the same network. */
  lemma ToggleOffShowsFirstPage(base: string, pages: PageServer<Character>, bulk: BulkServer,
                                s: FeedState, e: Episode, t: FeedState)
    requires s.selectedEpisodeId == Some(e.id)
    requires Perform(base, pages, bulk, ClickRequest(s, e)).outcome.Resolved?
    ensures ClickCompleted(ClickStarted(s, e), Perform(base, pages, bulk, ClickRequest(s, e)).outcome).characters
         == InitialLoadCompleted(InitialLoadStarted(t), Api.FetchCharacters(base, Api.DefaultPage, pages).outcome).characters
  {
  }

  /** Selecting an episode none of whose character URLs names an id makes no
      request and settles with an empty character list. */
  lemma SelectingEmptyEpisodeMakesNoRequest(base: string, pages: PageServer<Character>, bulk: BulkServer,
                                            s: FeedState, e: Episode)
    requires s.selectedEpisodeId != Some(e.id)
    requires Api.CharacterIds(e.characters) == []
    ensures Perform(base, pages, bulk, ClickRequest(s, e)) == Call([], Resolved(Some([])))
    ensures ClickCompleted(ClickStarted(s, e), Perform(base, pages, bulk, ClickRequest(s, e)).outcome).characters == Some([])
  {
  }

  // ---------------------------------------------------------------------
  // The component
  // ---------------------------------------------------------------------

  class RickAndMortyFeed {
    var episodes: seq<Episode>
    var characters: Option<seq<Character>>
    var selectedEpisodeId: Option<int>
    var loading: bool
    var charactersLoading: bool
    var error: Option<string>

    function View(): FeedState
      reads this
    {
      FeedState(episodes, characters, selectedEpisodeId, loading, charactersLoading, error)
    }

    /** The first render: every slot at its `useState` initial value. */
    constructor ()
      ensures View() == Initial
    {
      episodes := [];
      characters := Some([]);
      selectedEpisodeId := None;
      loading := true;
      charactersLoading := false;
      error := None;
    }

    /** loadEpisodes' completion. */
    method CompleteLoadEpisodes(o: Outcome<seq<Episode>>)
      modifies this
      ensures View() == EpisodesLoaded(old(View()), o)
    {
      match o
      case Resolved(eps) =>
        episodes := eps;
      case Rejected(_) =>
        error := Some(EpisodesError);
    }

    /** loadEpisodes run to its end: `fetchEpisodes()` never rejects, so the
        episodes are stored and the error slot is left alone. */
    method LoadEpisodes(base: string, server: PageServer<Episode>) returns (requested: seq<string>)
      modifies this
      ensures Api.IsCrawl(server, Api.EpisodesUrl(base), requested)
      ensures View() == EpisodesLoaded(old(View()), Resolved(Api.Harvest(server, requested)))
      ensures error == old(error)
    {
      var eps;
      eps, requested := Api.FetchEpisodes(base, server);
      CompleteLoadEpisodes(Resolved(eps));
    }

    /** loadInitialCharacters up to its `await`. */
    method StartInitialCharacters() returns (req: Request)
      modifies this
      ensures View() == InitialLoadStarted(old(View()))
      ensures req == InitialRequest
    {
      loading := true;
      req := InitialRequest;
    }

    /** loadInitialCharacters from its `await` through `finally`. */
    method CompleteInitialCharacters(o: Outcome<Option<seq<Character>>>)
      modifies this
      ensures View() == InitialLoadCompleted(old(View()), o)
    {
      match o {
        case Resolved(cs) =>
          characters := cs;
          error := None;
        case Rejected(_) =>
          error := Some(CharactersError);
      }
      loading := false;
    }

    /** loadInitialCharacters run to its end against the network. */
    method LoadInitialCharacters(base: string, pages: PageServer<Character>)
      returns (requests: seq<string>)
      modifies this
      ensures requests == [Api.PageUrl(base, Api.DefaultPage)]
      ensures View() == InitialLoadCompleted(InitialLoadStarted(old(View())),
                                             Api.FetchCharacters(base, Api.DefaultPage, pages).outcome)
    {
      var req := StartInitialCharacters();
      var call := Api.FetchCharacters(base, req.page, pages);
      requests := call.requests;
      CompleteInitialCharacters(call.outcome);
    }

    /** handleEpisodeClick up to its `await`: the selection is updated first,
        then the spinner turned on, and the fetch to await is returned. */
    method StartEpisodeClick(e: Episode) returns (req: Request)
      modifies this
      ensures View() == ClickStarted(old(View()), e)
      ensures req == ClickRequest(old(View()), e)
    {
      if selectedEpisodeId == Some(e.id) {
        selectedEpisodeId := None;
        charactersLoading := true;
        req := InitialRequest;
      } else {
        selectedEpisodeId := Some(e.id);
        charactersLoading := true;
        req := EpisodeCharacters(e.characters);
      }
    }

    /** handleEpisodeClick from its `await` through `finally`. The last
        completion applied decides `characters`. */
    method CompleteEpisodeClick(o: Outcome<Option<seq<Character>>>)
      modifies this
      ensures View() == ClickCompleted(old(View()), o)
    {
      match o {
        case Resolved(cs) =>
          characters := cs;
          error := None;
        case Rejected(_) =>
          error := Some(ClickError);
      }
      charactersLoading := false;
    }

    /** handleEpisodeClick run to its end with nothing interleaved. */
    method HandleEpisodeClick(e: Episode, base: string, pages: PageServer<Character>, bulk: BulkServer)
      returns (requests: seq<string>)
      modifies this
      ensures requests == Perform(base, pages, bulk, ClickRequest(old(View()), e)).requests
      ensures |requests| <= 1
      ensures View() == ClickCompleted(ClickStarted(old(View()), e),
                                       Perform(base, pages, bulk, ClickRequest(old(View()), e)).outcome)
    {
      var req := StartEpisodeClick(e);
      var call := Perform(base, pages, bulk, req);
      requests := call.requests;
      CompleteEpisodeClick(call.outcome);
    }
  }
}

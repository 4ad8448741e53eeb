/**
 * The single-page navigation of the voting app: a current view and a selected poll id,
 * changed by four handlers that the rendered components receive.
 */
module Navigation {
  import opened Wrappers
  import opened Text

  /** `'list' | 'create' | 'view'`. */
  datatype View = ListView | CreateView | DetailView

  datatype NavState = NavState(view: View, selected: Option<string>)

  /** The handlers: `handleCreateNew`, `handlePollCreated`, `handleSelectPoll`, `handleBackToList`. */
  datatype Event = CreateNew | PollCreated(pollId: string) | SelectPoll(pollId: string) | BackToList

  /** What the page renders. */
  datatype Screen = PollListScreen | CreatePollScreen | PollViewScreen(pollId: string) | NoScreen

  const Initial := NavState(ListView, None)

  /** The state after a handler: the list view never keeps a selection, the poll page always
      has one, and only "create new" looks at the previous state. */
  function Step(s: NavState, e: Event): (r: NavState)
    ensures r.view == ListView ==> r.selected.None?
    ensures r.view == DetailView ==> r.selected.Some?
    ensures e.CreateNew? ==> r.view == CreateView && r.selected == s.selected
  {
    match e
    case CreateNew => NavState(CreateView, s.selected)
    case PollCreated(id) => NavState(DetailView, Some(id))
    case SelectPoll(id) => NavState(DetailView, Some(id))
    case BackToList => NavState(ListView, None)
  }

  /**
   * The handlers each view's component is given: the poll list offers create and select,
   * the creation form offers created and cancel, the poll page offers back. Poll ids come
   * from the store and are never empty.
   */
  predicate Enabled(s: NavState, e: Event) {
    match e
    case CreateNew => s.view == ListView
    case SelectPoll(id) => s.view == ListView && id != ""
    case PollCreated(id) => s.view == CreateView && id != ""
    case BackToList => s.view == CreateView || s.view == DetailView
  }

  /** The three views are exclusive, and the poll page needs a truthy selection. */
  function Render(s: NavState): (r: Screen)
    ensures r.PollViewScreen? ==> s.view == DetailView && s.selected == Some(r.pollId) && r.pollId != ""
    ensures r == PollListScreen <==> s.view == ListView
    ensures r == CreatePollScreen <==> s.view == CreateView
  {
    match s.view
    case ListView => PollListScreen
    case CreateView => CreatePollScreen
    case DetailView => if Truthy(s.selected) then PollViewScreen(s.selected.value) else NoScreen
  }

  /** A poll is selected exactly when the poll page is shown, and the selection is never empty. */
  predicate Consistent(s: NavState) {
    (s.selected.Some? <==> s.view == DetailView) && (s.selected.Some? ==> s.selected.value != "")
  }

  /** Firing the same handler twice is the same as firing it once. */
  lemma StepIdempotent(s: NavState, e: Event)
    ensures Step(Step(s, e), e) == Step(s, e)
  {
  }

  /** Apart from "create new", a handler's outcome does not depend on the state it is fired in. */
  lemma StepForgetsHistory(s: NavState, s': NavState, e: Event)
    requires !e.CreateNew?
    ensures Step(s, e) == Step(s', e)
  {
  }

  predicate RunEnabled(s: NavState, events: seq<Event>)
    decreases |events|
  {
    events == [] || (Enabled(s, events[0]) && RunEnabled(Step(s, events[0]), events[1..]))
  }

  function Run(s: NavState, events: seq<Event>): NavState
    decreases |events|
  {
    if events == [] then s else Run(Step(s, events[0]), events[1..])
  }

  /** Every transition a view offers keeps the selection consistent with the view. */
  lemma StepKeepsConsistent(s: NavState, e: Event)
    requires Consistent(s) && Enabled(s, e)
    ensures Consistent(Step(s, e))
  {
  }

  /** From the first render on, any sequence of offered transitions keeps the state consistent,
      so some screen is always rendered and the poll page always has a poll to show. */
  lemma {:induction false} RunKeepsConsistent(s: NavState, events: seq<Event>)
    requires Consistent(s) && RunEnabled(s, events)
    ensures Consistent(Run(s, events))
    ensures Render(Run(s, events)) != NoScreen
    decreases |events|
  {
    if events != [] {
      StepKeepsConsistent(s, events[0]);
      RunKeepsConsistent(Step(s, events[0]), events[1..]);
    }
  }

  /** The consistency is a consequence of the wiring: `handleCreateNew` fired from the poll page
      would keep the selection while showing the creation form. */
  lemma UnwiredCreateBreaksConsistency()
    ensures Consistent(NavState(DetailView, Some("p")))
    ensures !Consistent(Step(NavState(DetailView, Some("p")), CreateNew))
  {
  }

  /** The `App` component's two state variables. */
  class App {
    var currentView: View
    var selectedPollId: Option<string>

    function State(): NavState
      reads this
    {
      NavState(currentView, selectedPollId)
    }

    /** The first render: the poll list, nothing selected. */
    constructor ()
      ensures State() == Initial && Consistent(State())
    {
      currentView := ListView;
      selectedPollId := None;
    }

    /** Shows the creation form; the selection is left as it was. */
    method HandleCreateNew()
      modifies this
      ensures currentView == CreateView && selectedPollId == old(selectedPollId)
      ensures State() == Step(old(State()), CreateNew)
    {
      currentView := CreateView;
    }

    method HandlePollCreated(pollId: string)
      modifies this
      ensures currentView == DetailView && selectedPollId == Some(pollId)
      ensures State() == Step(old(State()), PollCreated(pollId))
    {
      selectedPollId := Some(pollId);
      currentView := DetailView;
    }

    method HandleSelectPoll(pollId: string)
      modifies this
      ensures currentView == DetailView && selectedPollId == Some(pollId)
      ensures State() == Step(old(State()), SelectPoll(pollId))
    {
      selectedPollId := Some(pollId);
      currentView := DetailView;
    }

    /** Back to the poll list, clearing the selection (also the creation form's Cancel). */
    method HandleBackToList()
      modifies this
      ensures currentView == ListView && selectedPollId == None
      ensures State() == Step(old(State()), BackToList)
    {
      currentView := ListView;
      selectedPollId := None;
    }
  }
}

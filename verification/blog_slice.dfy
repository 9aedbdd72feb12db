/**
 The blog slice: which post the create/edit form is editing. The empty id
 means the form is composing a new post.
 */
module BlogSlice {

  /** The slice's whole state: a single field. */
  datatype BlogState = BlogState(postId: string)

  const InitialState: BlogState := BlogState("")

  /** The actions the slice reacts to; `Unrelated` stands for every other action the store dispatches. */
  datatype BlogAction =
    | StartEditPost(payload: string)
    | CancelEditPost
    | Unrelated

  /** The form is editing an existing post. */
  predicate IsEditing(s: BlogState) {
    s.postId != ""
  }

  /** `startEditPost`: the edit target becomes the given id, whatever it was. */
  function StartEdit(s: BlogState, id: string): (s': BlogState)
    ensures s'.postId == id
    ensures IsEditing(s') <==> id != ""
  {
    s.(postId := id)
  }

  /** `cancelEditPost`: back to the initial state, from any state. */
  function CancelEdit(s: BlogState): (s': BlogState)
    ensures s' == InitialState
    ensures !IsEditing(s')
  {
    s.(postId := "")
  }

  /** The slice reducer: its two cases, and any other action leaves the state alone. */
  function Reduce(s: BlogState, a: BlogAction): (s': BlogState)
    ensures a.StartEditPost? ==> s'.postId == a.payload
    ensures a.CancelEditPost? ==> s' == InitialState
    ensures a.Unrelated? ==> s' == s
  {
    match a
    case StartEditPost(id) => StartEdit(s, id)
    case CancelEditPost => CancelEdit(s)
    case Unrelated => s
  }

  /** The state after dispatching a sequence of actions in order. */
  function Replay(s: BlogState, actions: seq<BlogAction>): BlogState
    decreases |actions|
  {
    if actions == [] then s else Replay(Reduce(s, actions[0]), actions[1..])
  }

  /**
   Reference reading of a history: the edit target is set by the last
   start or cancel, and is the starting one if there is neither.
   */
  function LastEditTarget(start: string, actions: seq<BlogAction>): string
    decreases |actions|
  {
    if actions == [] then start
    else match actions[|actions| - 1]
      case StartEditPost(id) => id
      case CancelEditPost => ""
      case Unrelated => LastEditTarget(start, actions[..|actions| - 1])
  }

  /** Laws of the two transitions. */
  lemma EditLaws(s: BlogState, a: string, b: string)
    ensures CancelEdit(CancelEdit(s)) == CancelEdit(s)
    ensures CancelEdit(StartEdit(s, a)) == InitialState
    ensures StartEdit(StartEdit(s, a), b) == StartEdit(s, b)
    ensures StartEdit(s, "") == CancelEdit(s)
  {
  }

  /** Dispatching one more action is one more reducer step. */
  lemma {:induction false} ReplaySnoc(s: BlogState, actions: seq<BlogAction>, a: BlogAction)
    ensures Replay(s, actions + [a]) == Reduce(Replay(s, actions), a)
    decreases |actions|
  {
    if actions == [] {
      assert [] + [a] == [a];
      assert Replay(s, [a]) == Replay(Reduce(s, a), []);
    } else {
      assert (actions + [a])[0] == actions[0];
      assert (actions + [a])[1..] == actions[1..] + [a];
      ReplaySnoc(Reduce(s, actions[0]), actions[1..], a);
    }
  }

  /** The edit target after any history is the one its last start or cancel chose. */
  lemma {:induction false} ReplayLastEditWins(s: BlogState, actions: seq<BlogAction>)
    ensures Replay(s, actions).postId == LastEditTarget(s.postId, actions)
    decreases |actions|
  {
    if actions != [] {
      var prefix := actions[..|actions| - 1];
      var last := actions[|actions| - 1];
      assert actions == prefix + [last];
      ReplaySnoc(s, prefix, last);
      ReplayLastEditWins(s, prefix);
    }
  }
}

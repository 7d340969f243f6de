/**
 * The preview modal of cleanup_tool/static/script.js: one shared overlay
 * that is either hidden or shows a player for one embed URL. Its state is
 * the `hidden` class of the modal element and the content of the player
 * container.
 */
module Preview {

  /** The player container's content: empty, or one embedded player. */
  datatype PlayerContent = NoPlayer | Player(src: string)

  datatype ModalState = ModalState(hidden: bool, content: PlayerContent)

  /** Where a click on the window landed: the modal backdrop itself, or anything else. */
  datatype ClickTarget = Backdrop | Elsewhere

  /** The three handlers: `previewVideo(url)`, the close button, and `window.onclick`. */
  datatype ModalEvent = PreviewVideo(url: string) | CloseButton | WindowClick(target: ClickTarget)

  /** The state after one handler runs. */
  function Step(s: ModalState, e: ModalEvent): ModalState {
    match e
    case PreviewVideo(url) => ModalState(false, Player(url))
    case CloseButton => ModalState(true, NoPlayer)
    case WindowClick(Backdrop) => ModalState(true, NoPlayer)
    case WindowClick(Elsewhere) => s
  }

  /** The state after a sequence of handler runs. */
  function Run(s: ModalState, es: seq<ModalEvent>): ModalState
    decreases |es|
  {
    if es == [] then s else Run(Step(s, es[0]), es[1..])
  }

  /** No player is left running behind a hidden modal. */
  predicate Quiet(s: ModalState) {
    s.hidden ==> s.content == NoPlayer
  }

  /** Every handler keeps the modal quiet. */
  lemma StepKeepsQuiet(s: ModalState, e: ModalEvent)
    requires Quiet(s)
    ensures Quiet(Step(s, e))
  {
  }

  /** Any sequence of handler runs keeps the modal quiet. */
  lemma {:induction false} RunKeepsQuiet(s: ModalState, es: seq<ModalEvent>)
    requires Quiet(s)
    ensures Quiet(Run(s, es))
    decreases |es|
  {
    if es != [] {
      StepKeepsQuiet(s, es[0]);
      RunKeepsQuiet(Step(s, es[0]), es[1..]);
    }
  }

  /**
   * After previewing `url`, clicks that miss the backdrop leave the modal
   * visible with the player for `url`, whatever was shown before.
   */
  lemma {:induction false} LastPreviewWins(s: ModalState, url: string, clicks: seq<ModalEvent>)
    requires forall k :: 0 <= k < |clicks| ==> clicks[k] == WindowClick(Elsewhere)
    ensures Run(s, [PreviewVideo(url)] + clicks) == ModalState(false, Player(url))
    decreases |clicks|
  {
    var shown := ModalState(false, Player(url));
    if clicks == [] {
      assert ([PreviewVideo(url)] + clicks)[1..] == [];
    } else {
      assert ([PreviewVideo(url)] + clicks)[1..] == clicks;
      assert Run(shown, clicks) == Run(shown, clicks[1..]);
      assert ([PreviewVideo(url)] + clicks[1..])[1..] == clicks[1..];
      LastPreviewWins(s, url, clicks[1..]);
    }
  }

  /** Previewing twice shows only the second URL's player. */
  lemma PreviewTwice(s: ModalState, first: string, second: string)
    ensures Run(s, [PreviewVideo(first), PreviewVideo(second)]) == ModalState(false, Player(second))
  {
    LastPreviewWins(Step(s, PreviewVideo(first)), second, []);
    assert [PreviewVideo(first), PreviewVideo(second)][1..] == [PreviewVideo(second)] + [];
  }

  /** The modal element and its player container. */
  class PreviewModal {
    var hidden: bool
    var content: PlayerContent

    function State(): ModalState
      reads this
    {
      ModalState(hidden, content)
    }

    /** The page starts with the modal hidden and the container empty. */
    constructor ()
      ensures hidden && content == NoPlayer
      ensures Quiet(State())
    {
      hidden, content := true, NoPlayer;
    }

    method Preview(url: string)
      modifies this
      ensures !hidden && content == Player(url)
      ensures State() == Step(old(State()), PreviewVideo(url))
      ensures Quiet(State())
    {
      content := Player(url);
      hidden := false;
    }

    method CloseButtonClick()
      modifies this
      ensures hidden && content == NoPlayer
      ensures State() == Step(old(State()), CloseButton)
      ensures Quiet(State())
    {
      hidden := true;
      content := NoPlayer;
    }

    /** Closes only when the click landed on the backdrop itself. */
    method WindowClicked(target: ClickTarget)
      modifies this
      ensures target == Backdrop ==> hidden && content == NoPlayer
      ensures target == Elsewhere ==> hidden == old(hidden) && content == old(content)
      ensures State() == Step(old(State()), WindowClick(target))
      ensures old(Quiet(State())) ==> Quiet(State())
    {
      if target == Backdrop {
        hidden := true;
        content := NoPlayer;
      }
    }
  }
}

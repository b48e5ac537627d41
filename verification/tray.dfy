/** The tray side of a poll tick: `create_icon` picks one of three icon images by
    looking for fixed phrases in the status text, and `update_status` shows the
    status as the icon's tooltip title. */
module Tray {
  import opened Wrappers
  import opened PyText
  import opened Json
  import opened Poller

  /** The three icon images: `icon_red.png`, `icon_blue.png`, `icon_green.png`. */
  datatype IconImage = Red | Blue | Green

  /** `create_icon`: red when the text mentions "Ollama Not Running", otherwise blue
      when it mentions "No Model Running", otherwise green. */
  function CreateIcon(status: string): (icon: IconImage)
    ensures icon == Red <==> Contains(status, NotRunning)
    ensures icon == Blue <==> !Contains(status, NotRunning) && Contains(status, NoModel)
    ensures icon == Green <==> !Contains(status, NotRunning) && !Contains(status, NoModel)
  {
    if Contains(status, NotRunning) then Red
    else if Contains(status, NoModel) then Blue
    else Green
  }

  /** What the tray shows: the icon image and the tooltip title. */
  datatype TrayView = TrayView(icon: IconImage, title: string)

  /** The rendering part of one iteration of `update_status`. */
  function Render(status: string): TrayView {
    TrayView(CreateIcon(status), status)
  }

  /** One iteration of `update_status`: poll, then re-render from the returned
      text. The title is the text of the state the reply classifies to, and the
      icon is the one `create_icon` picks for that same text. */
  function PollTick(last: Option<string>, o: Outcome): (r: (Tick, TrayView))
    ensures r.0 == Step(last, o)
    ensures r.1.title == r.0.display == StatusText(Classify(o))
    ensures r.1.icon == CreateIcon(StatusText(Classify(o)))
  {
    var t := Step(last, o);
    StepMatchesClassify(last, o);
    (t, Render(t.display))
  }

  /** The icon the three-state design assigns to each state. */
  function IconFor(s: ModelStatus): IconImage {
    match s
    case ServerUnreachable => Red
    case NoModelLoaded => Blue
    case ModelActive(_, _) => Green
  }

  /** Each tick shows the status text as the title, whatever happened, and the
      icon of its state; a running model is green unless its own text happens to
      contain one of the two phrases `create_icon` looks for. */
  lemma TickRendersState(last: Option<string>, o: Outcome)
    ensures PollTick(last, o).1.title == PollTick(last, o).0.display
    ensures PollTick(last, o).1.title == StatusText(Classify(o))
    ensures var s := StatusText(Classify(o));
            !Classify(o).ModelActive? || (!Contains(s, NotRunning) && !Contains(s, NoModel))
            ==> PollTick(last, o).1.icon == IconFor(Classify(o))
  {
    StepMatchesClassify(last, o);
    match Classify(o)
    case ServerUnreachable =>
      ContainsPrefix(NotRunning, NotRunning);
    case NoModelLoaded =>
      ContainsPrefix(NoModel, NoModel);
      NotContainsLonger(NoModel, NotRunning);
    case ModelActive(_, _) =>
  }

  /** The icon shown before the first poll, for "Starting...", is green. */
  lemma StartingIsGreen()
    ensures CreateIcon("Starting...") == Green
  {
  }

  /** The phrase test is by substring: a model whose name contains
      "Ollama Not Running" is shown with the red icon although it is running. */
  lemma ModelNamedLikeStatusIsRed(size: Value)
    ensures var o := Response(200, Object(ModelsList([Entry(Some(Str(NotRunning)), Some(Details(Some(size))))])));
            Classify(o).ModelActive? && CreateIcon(Step(None, o).display) == Red
  {
    var o := Response(200, Object(ModelsList([Entry(Some(Str(NotRunning)), Some(Details(Some(size))))])));
    var s := ModelInfo(Str(NotRunning), size);
    StepMatchesClassify(None, o);
    assert Step(None, o).display == s;
    assert s == NotRunning + " (" + PyStr(size) + ")";
    assert NotRunning <= s;
    ContainsPrefix(s, NotRunning);
  }
}

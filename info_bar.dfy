/**
 * The info-bar service: shows an error message in an info bar at most once
 * while that bar is open, forgets the message when its bar is closed, and
 * opens a web page for the bar's two hyperlinks.
 */
module InfoBar {

  const SubmitIssueContext := "submitIssue"
  const KnownCaveatsContext := "knownCaveats"
  const IssuesUrl := "https://github.com/snyk/snyk-visual-studio-plugin/issues"
  const KnownCaveatsUrl := "https://github.com/snyk/snyk-visual-studio-plugin#known-caveats"
  const SubmitIssueCaption := "Submit an issue"
  const KnownCaveatsCaption := "Known Caveats"

  /** A hyperlink of an info bar: its text and the action context reported when it is clicked. */
  datatype InfoBarAction = InfoBarAction(text: string, actionContext: string)

  /** What an info bar shows: text spans, hyperlinks and whether it has a close button. */
  datatype InfoBarModel = InfoBarModel(spans: seq<string>, actions: seq<InfoBarAction>, isCloseButtonVisible: bool)

  /**
   * The URLs the action-item handler opens for an action context, in the
   * order it opens them: the two contexts are tested one after the other.
   */
  function OpenedUrls(actionContext: string): (urls: seq<string>)
    ensures |urls| <= 1
    ensures urls == [IssuesUrl] <==> actionContext == SubmitIssueContext
    ensures urls == [KnownCaveatsUrl] <==> actionContext == KnownCaveatsContext
    ensures urls == [] <==> actionContext != SubmitIssueContext && actionContext != KnownCaveatsContext
  {
    var first := if actionContext == SubmitIssueContext then [IssuesUrl] else [];
    var second := if actionContext == KnownCaveatsContext then [KnownCaveatsUrl] else [];
    assert |IssuesUrl| != |KnownCaveatsUrl| && |SubmitIssueContext| != |KnownCaveatsContext|;
    assert first == [] || second == [];
    assert first + [] == first && [] + second == second;
    first + second
  }

  /**
   * The model of the info bar for an error message: the message, then the
   * known-caveats link, then the submit-issue link, and a close button.
   */
  function ErrorInfoBarModel(message: string): (m: InfoBarModel)
    ensures m.spans == [message] && m.isCloseButtonVisible
    ensures |m.actions| == 2
    ensures m.actions[0].text == KnownCaveatsCaption && m.actions[0].actionContext == KnownCaveatsContext
    ensures m.actions[1].text == SubmitIssueCaption && m.actions[1].actionContext == SubmitIssueContext
  {
    InfoBarModel(
      [message],
      [InfoBarAction(KnownCaveatsCaption, KnownCaveatsContext), InfoBarAction(SubmitIssueCaption, SubmitIssueContext)],
      true)
  }

  /** Clicking the first link of an error bar opens the known-caveats page, the second the issues page. */
  lemma ErrorInfoBarLinksOpen(message: string)
    ensures OpenedUrls(ErrorInfoBarModel(message).actions[0].actionContext) == [KnownCaveatsUrl]
    ensures OpenedUrls(ErrorInfoBarModel(message).actions[1].actionContext) == [IssuesUrl]
  {
  }

  /** An info bar element, created by the info-bar factory from a model. */
  class InfoBarElement {
    const model: InfoBarModel

    constructor (model: InfoBarModel)
      ensures this.model == model
    {
      this.model := model;
    }
  }

  /** The tool window, recording the info bars added to it in order. */
  class ToolWindow {
    var infoBars: seq<InfoBarElement>

    constructor ()
      ensures infoBars == []
    {
      infoBars := [];
    }

    method AddInfoBar(e: InfoBarElement)
      modifies this
      ensures infoBars == old(infoBars) + [e]
    {
      infoBars := infoBars + [e];
    }
  }

  class VsInfoBarService {
    /** The messages whose info bars are open, each with its element. */
    var messagesCache: map<string, InfoBarElement>
    const toolWindow: ToolWindow

    /** Each cached element was built for the message it is cached under. */
    ghost predicate Valid()
      reads this
    {
      forall m :: m in messagesCache ==> messagesCache[m].model == ErrorInfoBarModel(m)
    }

    /** The cache starts empty. */
    constructor (toolWindow: ToolWindow)
      ensures Valid()
      ensures messagesCache == map[] && this.toolWindow == toolWindow
    {
      messagesCache := map[];
      this.toolWindow := toolWindow;
    }

    /** Distinct messages are cached with distinct elements. */
    lemma ElementsAreDistinct(m1: string, m2: string)
      requires Valid()
      requires m1 in messagesCache && m2 in messagesCache && messagesCache[m1] == messagesCache[m2]
      ensures m1 == m2
    {
      assert ErrorInfoBarModel(m1).spans == [m1];
      assert ErrorInfoBarModel(m2).spans == [m2];
    }

    /**
     * Shows `message` unless its info bar is already open: a new element is
     * created, cached under the message and added to the tool window.
     */
    method ShowErrorInfoBar(message: string)
      requires Valid()
      modifies this, toolWindow
      ensures Valid()
      ensures message in old(messagesCache) ==>
        messagesCache == old(messagesCache) && toolWindow.infoBars == old(toolWindow.infoBars)
      ensures message !in old(messagesCache) ==>
        && messagesCache.Keys == old(messagesCache).Keys + {message}
        && fresh(messagesCache[message])
        && messagesCache[message].model == ErrorInfoBarModel(message)
        && (forall m :: m in old(messagesCache) ==> messagesCache[m] == old(messagesCache)[m])
        && toolWindow.infoBars == old(toolWindow.infoBars) + [messagesCache[message]]
    {
      if message in messagesCache {
        return;
      }
      var element := new InfoBarElement(ErrorInfoBarModel(message));
      messagesCache := messagesCache[message := element];
      toolWindow.AddInfoBar(element);
    }

    /**
     * Forgets the message whose info bar `element` was closed. The handler
     * looks the key up by element; the element must be cached, since a miss
     * gives a null key that the dictionary refuses.
     */
    method OnClosed(element: InfoBarElement)
      requires Valid()
      requires element in messagesCache.Values
      modifies this
      ensures Valid()
      ensures forall m :: m in messagesCache <==> m in old(messagesCache) && old(messagesCache)[m] != element
      ensures forall m :: m in messagesCache ==> messagesCache[m] == old(messagesCache)[m]
      ensures |messagesCache| == |old(messagesCache)| - 1
    {
      var key :| key in messagesCache && messagesCache[key] == element;
      forall m | m in messagesCache && messagesCache[m] == element
        ensures m == key
      {
        ElementsAreDistinct(m, key);
      }
      messagesCache := messagesCache - {key};
    }

    /** Showing one message twice shows it once: one cache entry, at most one info bar added. */
    method ShowErrorInfoBarTwice(message: string)
      requires Valid()
      modifies this, toolWindow
      ensures Valid()
      ensures messagesCache.Keys == old(messagesCache).Keys + {message}
      ensures forall m :: m in old(messagesCache) ==> messagesCache[m] == old(messagesCache)[m]
      ensures |toolWindow.infoBars| == |old(toolWindow.infoBars)| + (if message in old(messagesCache) then 0 else 1)
    {
      ShowErrorInfoBar(message);
      ShowErrorInfoBar(message);
    }
  }
}

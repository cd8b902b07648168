/**
 * The dashboard's conversation: the message list, the active feature, the
 * greeting reset, and the simulated assistant reply, whose timer firing is
 * an explicit event.
 */
module Dashboard {
  import opened Basics
  import LanguageContext

  datatype Message = Message(text: string, isUser: bool)

  datatype Feature = SoilFeature | WeatherFeature | PestFeature | CropFeature | MarketFeature | SchemesFeature

  function FeatureId(f: Feature): string {
    match f
    case SoilFeature => "soil"
    case WeatherFeature => "weather"
    case PestFeature => "pest"
    case CropFeature => "crop"
    case MarketFeature => "market"
    case SchemesFeature => "schemes"
  }

  /** The translation key of a feature's title. */
  function TitleKey(f: Feature): string {
    "feature_" + FeatureId(f)
  }

  /** The `features` list, in display order. */
  const Features: seq<Feature> :=
    [SoilFeature, WeatherFeature, PestFeature, CropFeature, MarketFeature, SchemesFeature]

  /** The six feature ids are pairwise distinct. */
  lemma FeatureIdsDistinct()
    ensures |Features| == 6
    ensures forall i, j :: 0 <= i < j < |Features| ==> FeatureId(Features[i]) != FeatureId(Features[j])
    ensures forall f: Feature :: f in Features
  {
    forall f: Feature ensures f in Features {
      var i := match f
        case SoilFeature => 0 case WeatherFeature => 1 case PestFeature => 2
        case CropFeature => 3 case MarketFeature => 4 case SchemesFeature => 5;
      assert Features[i] == f;
    }
  }

  const GreetingKey: string := "ai_greeting"
  const ReplyPrefix: string := "I understand you're asking about " + ['"']
  const ReplySuffix: string := ['"'] + ". As your Digital Co-Farmer, I'm here to help! Let me provide guidance..."

  /** The simulated assistant reply to `m`: it quotes `m` verbatim. */
  function ReplyText(m: string): (r: string)
    ensures |r| == |ReplyPrefix| + |m| + |ReplySuffix|
    ensures r[|ReplyPrefix|..|ReplyPrefix| + |m|] == m
    ensures r[|ReplyPrefix| - 1] == '"' && r[|ReplyPrefix| + |m|] == '"'
  {
    ReplyPrefix + m + ReplySuffix
  }

  /** The reply determines the message it answers. */
  lemma ReplyTextInjective(m: string, n: string)
    requires ReplyText(m) == ReplyText(n)
    ensures m == n
  {
  }

  /** The greeting shown on a feature: `${t('ai_greeting')} ${title}`. */
  function FeatureGreeting(tables: LanguageContext.Translations, language: string, f: Feature): (r: string)
    ensures var g := LanguageContext.Translate(tables, language, GreetingKey);
            |r| > |g| && r[..|g|] == g && r[|g|] == ' ' &&
            r[|g| + 1..] == LanguageContext.Translate(tables, language, TitleKey(f))
  {
    LanguageContext.Translate(tables, language, GreetingKey) + " " +
      LanguageContext.Translate(tables, language, TitleKey(f))
  }

  class DashboardPage {
    var messages: seq<Message>
    /** The `activeFeature` state: a feature id, or null. */
    var activeFeature: Option<string>
    /** Messages whose simulated reply is scheduled and not yet appended, oldest first. */
    var pendingReplies: seq<string>

    constructor ()
      ensures messages == [] && activeFeature.None? && pendingReplies == []
    {
      messages := [];
      activeFeature := None;
      pendingReplies := [];
    }

    /** The effect on `t`: the list becomes the single greeting message. */
    method ResetGreeting(tables: LanguageContext.Translations, language: string)
      modifies this`messages
      ensures messages == [Message(LanguageContext.Translate(tables, language, GreetingKey), false)]
    {
      messages := [Message(LanguageContext.Translate(tables, language, GreetingKey), false)];
    }

    /** `handleFeatureClick`: activate the feature and replace the list with its greeting. */
    method HandleFeatureClick(tables: LanguageContext.Translations, language: string, f: Feature)
      modifies this`activeFeature, this`messages
      ensures activeFeature == Some(FeatureId(f))
      ensures messages == [Message(FeatureGreeting(tables, language, f), false)]
    {
      activeFeature := Some(FeatureId(f));
      messages := [Message(FeatureGreeting(tables, language, f), false)];
    }

    /** `handleSend(m)`: append the user's message and schedule the reply. */
    method HandleSend(m: string)
      modifies this`messages, this`pendingReplies
      ensures messages == old(messages) + [Message(m, true)]
      ensures pendingReplies == old(pendingReplies) + [m]
    {
      messages := messages + [Message(m, true)];
      pendingReplies := pendingReplies + [m];
    }

    /**
     * The oldest scheduled reply fires (every delay is the same, so timers
     * fire in the order they were set): append one assistant message quoting it.
     */
    method ReplyArrives()
      requires pendingReplies != []
      modifies this`messages, this`pendingReplies
      ensures messages == old(messages) + [Message(ReplyText(old(pendingReplies)[0]), false)]
      ensures pendingReplies == old(pendingReplies)[1..]
    {
      messages := messages + [Message(ReplyText(pendingReplies[0]), false)];
      pendingReplies := pendingReplies[1..];
    }

    /** The back button: leave the feature, keep the messages. */
    method Back()
      modifies this`activeFeature
      ensures activeFeature.None?
    {
      activeFeature := None;
    }
  }

  /**
   * A conversation turn: after a send and its reply, the earlier messages are
   * untouched and the two new ones are the user's text and a reply quoting it.
   */
  method Exchange(page: DashboardPage, m: string) returns (added: seq<Message>)
    requires page.pendingReplies == []
    modifies page
    ensures page.messages == old(page.messages) + added
    ensures added == [Message(m, true), Message(ReplyText(m), false)]
    ensures page.pendingReplies == []
    ensures page.activeFeature == old(page.activeFeature)
  {
    page.HandleSend(m);
    page.ReplyArrives();
    added := [Message(m, true), Message(ReplyText(m), false)];
  }
}

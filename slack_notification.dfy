/**
 * The per-recipient notification pipeline of the Discord/Slack webhook plugin:
 * which events reach a user's webhook (`Notify`, as a decision over its inputs),
 * how an event is rendered to a Markdown line (`renderNotification`,
 * `formatMarkdownNotification`, `getUserURL`), and the broadcast query over the
 * user-configuration cache (`GetNewQuestionSubscribers`).
 */
module SlackNotification {
  import opened Wrappers
  import opened Schema
  import Strings

  /** The host's notification types; `Other` is any type string the plugin does not name.
      The model assumes the host's string for each named type always arrives as
      that named case, never as `Other` carrying the same string. */
  datatype NotificationType =
    | NewQuestion
    | NewQuestionFollowedTag
    | UpdateQuestion
    | AnswerTheQuestion
    | UpdateAnswer
    | AcceptAnswer
    | CommentQuestion
    | CommentAnswer
    | ReplyToYou
    | MentionYou
    | InvitedYouToAnswer
    | Other(name: string)

  /** The fields of the host's notification message that the plugin reads. */
  datatype NotificationMessage = NotificationMessage(
    kind: NotificationType,
    receiverUserID: string,
    receiverLang: string,
    triggerUserDisplayName: string,
    questionTitle: string,
    questionUrl: string,
    questionTags: string)

  /** A user's stored settings: the webhook and the three category switches. */
  datatype UserConfig = UserConfig(
    webhookURL: string,
    inboxNotifications: bool,
    allNewQuestions: bool,
    newQuestionsForFollowingTags: bool)

  /** What looking up the receiver's settings gave: an error, no settings (nil), or settings. */
  datatype FetchResult = FetchError | NilConfig | Found(config: UserConfig)

  /** What one `Notify` call does: stop at one of the guards, or make one POST. */
  datatype Outcome =
    | SkipDisabled
    | SkipFetchError
    | SkipNilConfig
    | SkipCategoryOff
    | SkipNoWebhook
    | SkipEmptyMessage
    | Send(url: string, body: WebhookBody)

  /** `url.PathEscape`, supplied by the caller; its escaping rules are not modelled. */
  type Escape = string -> string

  const UserProfilePrefix: string := "https://answer.apps.hexmos.com/users/"

  // ---------------------------------------------------------------------------
  // Category gate

  /** The switch of `Notify` on the type: which of the user's flags lets it through. */
  predicate CategoryEnabled(config: UserConfig, kind: NotificationType)
  {
    match kind
    case NewQuestion => config.allNewQuestions
    case NewQuestionFollowedTag => config.newQuestionsForFollowingTags
    case _ => config.inboxNotifications
  }

  /** The category table: new questions follow `AllNewQuestions`, followed-tag
      questions follow `NewQuestionsForFollowingTags`, every other type, known
      or not, follows `InboxNotifications`; each flag governs only its category. */
  lemma CategoryTable(config: UserConfig, kind: NotificationType)
    ensures kind == NewQuestion ==>
      (CategoryEnabled(config, kind) <==> config.allNewQuestions)
    ensures kind == NewQuestionFollowedTag ==>
      (CategoryEnabled(config, kind) <==> config.newQuestionsForFollowingTags)
    ensures kind != NewQuestion && kind != NewQuestionFollowedTag ==>
      (CategoryEnabled(config, kind) <==> config.inboxNotifications)
    ensures CategoryEnabled(config, kind)
        == CategoryEnabled(config.(webhookURL := ""), kind)
  {
  }

  // ---------------------------------------------------------------------------
  // Rendering

  /** `getUserURL`: the profile page of a user, the escaped name after a fixed prefix. */
  function GetUserURL(username: string, escape: Escape): (r: string)
    ensures |r| == |UserProfilePrefix| + |escape(username)|
    ensures r[..|UserProfilePrefix|] == UserProfilePrefix
    ensures r[|UserProfilePrefix|..] == escape(username)
  {
    UserProfilePrefix + escape(username)
  }

  /** `formatMarkdownNotification`: `[name](profile) action [title](url)`. The
      contract cuts the line into its seven segments at fixed offsets. */
  function FormatMarkdownNotification(username: string, action: string, title: string, url: string, escape: Escape): (r: string)
    ensures |r| == |username| + |GetUserURL(username, escape)| + |action| + |title| + |url| + 10
    ensures r[..1 + |username| + 2] == "[" + username + "]("
    ensures var k := 1 + |username| + 2;
      r[k..k + |GetUserURL(username, escape)|] == GetUserURL(username, escape)
    ensures var k := 1 + |username| + 2 + |GetUserURL(username, escape)|;
      r[k..k + 2 + |action| + 2] == ") " + action + " ["
    ensures var k := 1 + |username| + 2 + |GetUserURL(username, escape)| + 2 + |action| + 2;
      r[k..k + |title|] == title
    ensures r[|r| - |url| - 3..] == "](" + url + ")"
  {
    "[" + username + "](" + GetUserURL(username, escape) + ") " + action + " [" + title + "](" + url + ")"
  }

  /** The tag list reformatted from "a,b" to "a, b"; `renderNotification` computes it and discards it. */
  function ReformatTags(tags: string): (r: string)
    ensures r == Strings.ReplaceChar(tags, ',', ", ")
  {
    Strings.JoinSplitIsReplace(tags, ',', ", ");
    Strings.Join(Strings.Split(tags, ','), ", ")
  }

  /** `renderNotification`: the fixed English line for the types its switch names, "" for all others. */
  function RenderNotification(msg: NotificationMessage, escape: Escape): string
  {
    var name, title, url := msg.triggerUserDisplayName, msg.questionTitle, msg.questionUrl;
    match msg.kind
    case UpdateQuestion => FormatMarkdownNotification(name, "updated answer", title, url, escape)
    case AnswerTheQuestion => FormatMarkdownNotification(name, "answered your question", title, url, escape)
    case AcceptAnswer => FormatMarkdownNotification(name, "accepted your answer", title, url, escape)
    case CommentQuestion => FormatMarkdownNotification(name, "commented on your question", title, url, escape)
    case CommentAnswer => FormatMarkdownNotification(name, "commented on your answer", title, url, escape)
    case ReplyToYou => FormatMarkdownNotification(name, "replied to your comment", title, url, escape)
    case MentionYou => FormatMarkdownNotification(name, "mentioned you in a comment", title, url, escape)
    case InvitedYouToAnswer => FormatMarkdownNotification(name, "invited you to answer", title, url, escape)
    case NewQuestion | NewQuestionFollowedTag =>
      var _ := ReformatTags(msg.questionTags);
      FormatMarkdownNotification(name, "asked a new question", title, url, escape)
    case _ => ""
  }

  /** The types `renderNotification` has a phrase for, with that phrase. */
  function ActionPhrase(kind: NotificationType): Option<string>
  {
    match kind
    case UpdateQuestion => Some("updated answer")
    case AnswerTheQuestion => Some("answered your question")
    case AcceptAnswer => Some("accepted your answer")
    case CommentQuestion => Some("commented on your question")
    case CommentAnswer => Some("commented on your answer")
    case ReplyToYou => Some("replied to your comment")
    case MentionYou => Some("mentioned you in a comment")
    case InvitedYouToAnswer => Some("invited you to answer")
    case NewQuestion => Some("asked a new question")
    case NewQuestionFollowedTag => Some("asked a new question")
    case UpdateAnswer => None
    case Other(_) => None
  }

  /** The rendered line is empty exactly for the types without a phrase
      (`UpdateAnswer` and unrecognised ones); otherwise it is the Markdown line
      for that phrase, built from the trigger user, title and URL alone. */
  lemma RenderShape(msg: NotificationMessage, escape: Escape)
    ensures RenderNotification(msg, escape) == "" <==> ActionPhrase(msg.kind).None?
    ensures RenderNotification(msg, escape) == "" <==> msg.kind == UpdateAnswer || msg.kind.Other?
    ensures ActionPhrase(msg.kind).Some? ==>
      RenderNotification(msg, escape) == FormatMarkdownNotification(
        msg.triggerUserDisplayName, ActionPhrase(msg.kind).value, msg.questionTitle, msg.questionUrl, escape)
  {
  }

  /** Only the type, the trigger user, the title and the URL reach the line: the
      receiver, the language and the tags (reformatted or not) do not. */
  lemma RenderIgnoresReceiverAndTags(msg: NotificationMessage, receiver: string, lang: string, tags: string, escape: Escape)
    ensures RenderNotification(msg.(receiverUserID := receiver, receiverLang := lang, questionTags := tags), escape)
         == RenderNotification(msg, escape)
  {
  }

  // ---------------------------------------------------------------------------
  // The decision of Notify

  /** `Notify` with the HTTP call taken out: the guards in the source's order,
      then at most one POST of `NewWebhookReq(message)` to the user's webhook. */
  function Notify(notificationEnabled: bool, fetch: FetchResult, msg: NotificationMessage, escape: Escape): (o: Outcome)
    ensures o.Send? <==>
      && notificationEnabled
      && fetch.Found?
      && CategoryEnabled(fetch.config, msg.kind)
      && fetch.config.webhookURL != ""
      && ActionPhrase(msg.kind).Some?
    ensures o.Send? ==>
      && o.url == fetch.config.webhookURL
      && o.body.embeds == []
      && o.body.content != ""
      && o.body.content == RenderNotification(msg, escape)
  {
    RenderShape(msg, escape);
    if !notificationEnabled then SkipDisabled
    else match fetch
      case FetchError => SkipFetchError
      case NilConfig => SkipNilConfig
      case Found(config) =>
        if !CategoryEnabled(config, msg.kind) then SkipCategoryOff
        else if |config.webhookURL| == 0 then SkipNoWebhook
        else
          var message := RenderNotification(msg, escape);
          if |message| == 0 then SkipEmptyMessage
          else Send(config.webhookURL, NewWebhookReq(message))
  }

  /** The global switch is looked at first: when it is off, nothing is sent
      and the result does not depend on the settings lookup at all. */
  lemma DisabledComesFirst(fetch: FetchResult, other: FetchResult, msg: NotificationMessage, escape: Escape)
    ensures Notify(false, fetch, msg, escape) == SkipDisabled
    ensures Notify(false, fetch, msg, escape) == Notify(false, other, msg, escape)
  {
  }

  /** A failed lookup or a missing (nil) configuration sends nothing, whatever the event. */
  lemma FetchFailureSendsNothing(msg: NotificationMessage, escape: Escape)
    ensures Notify(true, FetchError, msg, escape) == SkipFetchError
    ensures Notify(true, NilConfig, msg, escape) == SkipNilConfig
  {
  }

  /** The category gate comes before the webhook check: a switched-off category
      is reported as such whatever the webhook URL, and a switched-on one with an
      empty URL sends nothing. */
  lemma CategoryBeforeWebhook(config: UserConfig, msg: NotificationMessage, escape: Escape)
    ensures !CategoryEnabled(config, msg.kind) ==>
      Notify(true, Found(config), msg, escape) == SkipCategoryOff
    ensures CategoryEnabled(config, msg.kind) && config.webhookURL == "" ==>
      Notify(true, Found(config), msg, escape) == SkipNoWebhook
  {
  }

  /** `UpdateAnswer` passes the inbox gate but has no phrase, so it is dropped at
      the empty-message guard; unrecognised types likewise. */
  lemma UnrenderedTypesDropped(config: UserConfig, msg: NotificationMessage, escape: Escape)
    requires msg.kind == UpdateAnswer || msg.kind.Other?
    requires config.inboxNotifications && config.webhookURL != ""
    ensures Notify(true, Found(config), msg, escape) == SkipEmptyMessage
  {
  }

  // ---------------------------------------------------------------------------
  // The plugin object and its cache

  /** The plugin object; its user-configuration cache is a map from user ID to settings. */
  class Notification {
    var userConfigMapping: map<string, UserConfig>

    /** `GetNewQuestionSubscribers`: the cached users with `AllNewQuestions`, each
        once, in no particular order; a user not in the cache is never listed. */
    method GetNewQuestionSubscribers() returns (userIDs: seq<string>)
      ensures forall id :: id in userIDs <==> id in userConfigMapping && userConfigMapping[id].allNewQuestions
      ensures forall i, j :: 0 <= i < j < |userIDs| ==> userIDs[i] != userIDs[j]
    {
      userIDs := [];
      var remaining := userConfigMapping.Keys;
      while remaining != {}
        invariant remaining <= userConfigMapping.Keys
        invariant forall id :: id in userIDs <==>
          id in userConfigMapping && id !in remaining && userConfigMapping[id].allNewQuestions
        invariant forall i, j :: 0 <= i < j < |userIDs| ==> userIDs[i] != userIDs[j]
        decreases remaining
      {
        var userID :| userID in remaining;
        if userConfigMapping[userID].allNewQuestions {
          userIDs := userIDs + [userID];
        }
        remaining := remaining - {userID};
      }
    }
  }
}

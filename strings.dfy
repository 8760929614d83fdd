/** The table of the bot's reply texts, keyed by "<locale>-<message id>". */
module MessageTable {
  const DefaultLocale := "ru"

  const LocalizedMessages: map<string, string> := map[
    "ru-not_admin" := "Только админы чата могут управлять мной.",
    "ru-muted" := "Я не буду доставлять сообщения в этот чат.",
    "ru-unmuted" := "Я буду доставлять сообщения в этот чат.",
    "ru-not_changed_muted" := "Я уже отключен.",
    "ru-not_changed_unmuted" := "Я доставлю сообщения в этот чат как только их кто-то отправит.",
    "ru-show_chat_addr" := "Адрес данного чата для отправки сообщений через бота: `%s`",
    "ru-error" := "Что-то пошло не так...",

    "en-not_admin" := "Only chat admins can control me.",
    "en-muted" := "I stopped delivering messages to this chat.",
    "en-unmuted" := "I started delivering messages to this chat.",
    "en-not_changed_muted" := "I already stopped delivering messages to this chat.",
    "en-not_changed_unmuted" := "I will deliver messages to this chat as soon as someone sends them.",
    "en-show_chat_addr" := "The address of this chat for sending messages via the bot: `%s`",
    "en-error" := "Something is wrong..."
  ]

  /** The keys of the table. */
  const MessageKeys: set<string> := {
    "ru-not_admin", "ru-muted", "ru-unmuted", "ru-not_changed_muted", "ru-not_changed_unmuted",
    "ru-show_chat_addr", "ru-error",
    "en-not_admin", "en-muted", "en-unmuted", "en-not_changed_muted", "en-not_changed_unmuted",
    "en-show_chat_addr", "en-error"
  }

  lemma TableKeys()
    ensures LocalizedMessages.Keys == MessageKeys
  {
  }
}

/** The message ids the command handler replies with, and the table keys they
    give in a locale. */
module MessageIds {
  const CommandMessageIds: set<string> :=
    {"not_admin", "muted", "unmuted", "not_changed_muted", "not_changed_unmuted", "show_chat_addr", "error"}

  /** The keys of the handler's ids in one locale. */
  function LocaleKeys(locale: string): set<string> {
    {locale + "-not_admin", locale + "-muted", locale + "-unmuted", locale + "-not_changed_muted",
     locale + "-not_changed_unmuted", locale + "-show_chat_addr", locale + "-error"}
  }

  /** The lookup key of a handler id is one of the locale's keys. */
  lemma LocaleKey(locale: string, messageId: string)
    requires messageId in CommandMessageIds
    ensures locale + "-" + messageId in LocaleKeys(locale)
  {
    if messageId == "not_admin" {
      assert locale + "-" + messageId == locale + "-not_admin" by {}
    } else if messageId == "muted" {
      assert locale + "-" + messageId == locale + "-muted" by {}
    } else if messageId == "unmuted" {
      assert locale + "-" + messageId == locale + "-unmuted" by {}
    } else if messageId == "not_changed_muted" {
      assert locale + "-" + messageId == locale + "-not_changed_muted" by {}
    } else if messageId == "not_changed_unmuted" {
      assert locale + "-" + messageId == locale + "-not_changed_unmuted" by {}
    } else if messageId == "show_chat_addr" {
      assert locale + "-" + messageId == locale + "-show_chat_addr" by {}
    } else {
      assert locale + "-" + messageId == locale + "-error" by {}
    }
  }
}

/** The table holds a text in both of its locales for every id the command
    handler uses. */
module MessageCoverage {
  import opened MessageIds
  import opened MessageTable

  /** The table has a text in both locales for every id the handler uses. */
  lemma KeysInTable()
    ensures forall key | key in LocaleKeys("ru") :: key in MessageKeys
    ensures forall key | key in LocaleKeys("en") :: key in MessageKeys
  {
    NotAdminKeys();
    MutedKeys();
    UnmutedKeys();
    NotChangedMutedKeys();
    NotChangedUnmutedKeys();
    ShowChatAddrKeys();
    ErrorKeys();
  }

  lemma NotAdminKeys()
    ensures "ru" + "-not_admin" == "ru-not_admin" && "en" + "-not_admin" == "en-not_admin"
  {
  }

  lemma MutedKeys()
    ensures "ru" + "-muted" == "ru-muted" && "en" + "-muted" == "en-muted"
  {
  }

  lemma UnmutedKeys()
    ensures "ru" + "-unmuted" == "ru-unmuted" && "en" + "-unmuted" == "en-unmuted"
  {
  }

  lemma NotChangedMutedKeys()
    ensures "ru" + "-not_changed_muted" == "ru-not_changed_muted" && "en" + "-not_changed_muted" == "en-not_changed_muted"
  {
  }

  lemma NotChangedUnmutedKeys()
    ensures "ru" + "-not_changed_unmuted" == "ru-not_changed_unmuted" && "en" + "-not_changed_unmuted" == "en-not_changed_unmuted"
  {
  }

  lemma ShowChatAddrKeys()
    ensures "ru" + "-show_chat_addr" == "ru-show_chat_addr" && "en" + "-show_chat_addr" == "en-show_chat_addr"
  {
  }

  lemma ErrorKeys()
    ensures "ru" + "-error" == "ru-error" && "en" + "-error" == "en-error"
  {
  }
}

/** The bot's replies: a table of texts keyed by "<locale>-<message id>" and a
    lookup that falls back to Russian and, failing that, to a visible
    placeholder. */
module Localization {
  import opened Text
  import opened MessageIds
  import opened MessageTable
  import opened MessageCoverage

  /** What a lookup that finds nothing returns. */
  function Placeholder(locale: string, messageId: string): string {
    "{{" + locale + "-" + messageId + "}}"
  }

  /** `getLocalizedMessage`: the entry for the locale, else the Russian one, else
      the placeholder, with both keys lower-cased first. The text is never empty
      and is a table entry unless the placeholder is used. */
  function GetLocalizedMessage(locale: string, messageId: string): (msg: string)
    ensures msg != ""
    ensures msg in LocalizedMessages.Values || msg == Placeholder(ToLower(locale), ToLower(messageId))
  {
    var l := ToLower(locale);
    var id := ToLower(messageId);
    if l + "-" + id in LocalizedMessages then LocalizedMessages[l + "-" + id]
    else if DefaultLocale + "-" + id in LocalizedMessages then LocalizedMessages[DefaultLocale + "-" + id]
    else Placeholder(l, id)
  }

  /** The lookup ignores the case of the locale and of the message id. */
  lemma LookupIgnoresCase(locale: string, messageId: string, locale': string, messageId': string)
    requires ToLower(locale) == ToLower(locale') && ToLower(messageId) == ToLower(messageId')
    ensures GetLocalizedMessage(locale, messageId) == GetLocalizedMessage(locale', messageId')
  {
  }

  /** The lookup order: an exact entry wins, then the Russian entry, and the
      placeholder only when neither exists. */
  lemma LookupOrder(locale: string, messageId: string)
    ensures var key := ToLower(locale) + "-" + ToLower(messageId);
      var fallback := DefaultLocale + "-" + ToLower(messageId);
      && (key in LocalizedMessages ==> GetLocalizedMessage(locale, messageId) == LocalizedMessages[key])
      && (key !in LocalizedMessages && fallback in LocalizedMessages ==>
            GetLocalizedMessage(locale, messageId) == LocalizedMessages[fallback])
      && (key !in LocalizedMessages && fallback !in LocalizedMessages ==>
            GetLocalizedMessage(locale, messageId) == Placeholder(ToLower(locale), ToLower(messageId)))
  {
  }

  /** Every id the command handler uses, in any case, has a Russian entry, so for
      every locale it yields a table text, never the placeholder. */
  lemma CommandMessagesFound(locale: string, messageId: string)
    requires ToLower(messageId) in CommandMessageIds
    ensures GetLocalizedMessage(locale, messageId) in LocalizedMessages.Values
  {
    LocaleKey(DefaultLocale, ToLower(messageId));
    KeysInTable();
    TableKeys();
  }

  /** The handler's ids are lower-case already. */
  lemma CommandIdLower(messageId: string)
    requires messageId in CommandMessageIds
    ensures ToLower(messageId) == messageId
  {
    assert IsLower(messageId);
    ToLowerOfLower(messageId);
  }

  /** The English locale, in any case, gets the English texts. */
  lemma EnglishReplies(locale: string, messageId: string)
    requires ToLower(locale) == "en" && ToLower(messageId) in CommandMessageIds
    ensures "en-" + ToLower(messageId) in LocalizedMessages
    ensures GetLocalizedMessage(locale, messageId) == LocalizedMessages["en-" + ToLower(messageId)]
  {
    LocaleKey("en", ToLower(messageId));
    KeysInTable();
    TableKeys();
    assert "en" + "-" + ToLower(messageId) == "en-" + ToLower(messageId);
  }
}

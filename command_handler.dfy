/** The bot's command callback: `/mute` and `/unmute` switch delivery to the
    sender's chat off and on through the mute store, and the chat-address
    command shows the address the send API resolves to that chat. */
module CommandHandler {
  import opened Wrappers
  import opened Text
  import opened Uuid
  import opened BotModels
  import opened MessageIds
  import opened MessageTable
  import opened Localization
  import opened MuteManager

  const MuteCommand := "/mute"
  const UnmuteCommand := "/unmute"

  /** The sender may control the bot: a chat admin, or anyone in a one-to-one chat. */
  predicate IsAdmin(from: From) {
    from.isAdmin || from.chatType == ChatTypeChat
  }

  /** The command word: the body lower-cased and trimmed, up to its first space. */
  function ParseCommand(body: string): (command: string)
    ensures ' ' !in command
    ensures |command| <= |body|
  {
    FirstField(TrimSpace(ToLower(body)))
  }

  /** Whatever the case of the word, the white space around the body and the
      arguments after the word, the command is the lower-cased word. */
  lemma CommandOfBody(lead: string, word: string, args: string, trail: string)
    requires AllSpace(lead) && AllSpace(trail)
    requires ' ' !in word && IsTrimmed(word + args)
    requires args == [] || args[0] == ' '
    ensures ParseCommand(lead + word + args + trail) == ToLower(word)
  {
    var body := lead + word + args + trail;
    ToLowerConcat(lead + word + args, trail);
    ToLowerConcat(lead, word + args);
    assert lead + word + args == lead + (word + args);
    ToLowerSpacing(lead);
    ToLowerSpacing(trail);
    ToLowerSpacing(word + args);
    TrimSpacePadded(ToLower(lead), ToLower(word + args), ToLower(trail));
    ToLowerConcat(word, args);
    assert ' ' !in ToLower(word) by {
      forall i | 0 <= i < |word| ensures ToLower(word)[i] != ' ' {
        assert word[i] != ' ';
      }
    }
    FirstFieldOfWord(ToLower(word), ToLower(args));
  }

  /** The replies to `/mute` and `/unmute`. */
  datatype MuteReply = NotAdmin | Muted | Unmuted | NotChangedMuted | NotChangedUnmuted | Failed

  /** The message id of a reply. */
  function MessageId(reply: MuteReply): (id: string)
    ensures id in CommandMessageIds && id != ""
  {
    match reply
    case NotAdmin => "not_admin"
    case Muted => "muted"
    case Unmuted => "unmuted"
    case NotChangedMuted => "not_changed_muted"
    case NotChangedUnmuted => "not_changed_unmuted"
    case Failed => "error"
  }

  /** The reply to `/mute` or `/unmute`, from the sender's rights, the command,
      whether the chat was muted before and whether the file was saved. */
  function MuteReplyOf(admin: bool, mute: bool, wasMuted: bool, saved: bool): MuteReply {
    if !admin then NotAdmin
    else if wasMuted == mute then (if mute then NotChangedMuted else NotChangedUnmuted)
    else if !saved then Failed
    else if mute then Muted else Unmuted
  }

  /** The reply of an admin tells the chat's state after the command: muted or
      already muted exactly when the chat is muted, unmuted or already unmuted
      exactly when it is not, and an error only when the state is the old one
      and not the one asked for. */
  lemma ReplyTellsState(mute: bool, wasMuted: bool, saved: bool)
    ensures var nowMuted := if wasMuted != mute && saved then mute else wasMuted;
      var reply := MuteReplyOf(true, mute, wasMuted, saved);
      && (reply in {Muted, NotChangedMuted} <==> nowMuted && !reply.Failed?)
      && (reply in {Unmuted, NotChangedUnmuted} <==> !nowMuted && !reply.Failed?)
      && (reply.Failed? <==> nowMuted == wasMuted && nowMuted != mute)
      && reply != NotAdmin
  {
  }

  /** A save of the store succeeds: the file is absolute and exists, the
      temporary name is free and no step fails. */
  predicate SaveSucceeds(files: map<string, string>, file: string, tag: string, fault: Option<SaveFault>) {
    IsAbs(file) && file in files && TempPath(file, tag) !in files && fault.None?
  }

  /** The position of the first `%s` in a format string, or its length when it
      has none. */
  function VerbIndex(format: string): (i: nat)
    ensures i <= |format|
    ensures i < |format| ==> i + 1 < |format| && format[i] == '%' && format[i + 1] == 's'
    ensures forall j :: 0 <= j < i && j + 1 < |format| ==> !(format[j] == '%' && format[j + 1] == 's')
  {
    if |format| < 2 then |format|
    else if format[0] == '%' && format[1] == 's' then 0
    else 1 + VerbIndex(format[1..])
  }

  /** Where `FormatString` puts its argument: at the first `%s`, or after the
      format and the 16 characters of `%!(EXTRA string=`. */
  function ArgStart(format: string): nat {
    var i := VerbIndex(format);
    if i < |format| then i else |format| + 16
  }

  /** `fmt.Sprintf(format, arg)` for a format whose verb is `%s`: the first `%s`
      becomes the argument; a format without one gets Go's report of the extra
      argument appended. The argument appears in the text at `ArgStart`, and the
      format before that position is kept. */
  function FormatString(format: string, arg: string): (text: string)
    ensures ArgStart(format) + |arg| <= |text| && text[ArgStart(format)..ArgStart(format) + |arg|] == arg
    ensures VerbIndex(format) <= |text| && text[..VerbIndex(format)] == format[..VerbIndex(format)]
  {
    var i := VerbIndex(format);
    if i < |format| then format[..i] + arg + format[i + 2..]
    else format + "%!(EXTRA string=" + arg + ")"
  }

  /** `part` occurs in `text` at position `i`. */
  predicate OccursAt(text: string, part: string, i: int) {
    0 <= i <= |text| - |part| && text[i..i + |part|] == part
  }

  /** `text` holds `part` somewhere. */
  ghost predicate Contains(text: string, part: string) {
    exists i :: OccursAt(text, part, i)
  }

  /** The address of a chat for the send API: its id followed by the group suffix. */
  function ChatAddress(chatId: UUID, suffix: string): string {
    ToString(chatId) + suffix
  }

  /** A reply to the sender's chat, in the sender's locale. */
  function Notice(from: From, key: string): NDRequest {
    NDRequest(from.groupChatId, GetLocalizedMessage(from.locale, key), [])
  }

  /** The chat-address reply. */
  function AddressReply(from: From, suffix: string): (n: NDRequest)
    ensures n.chatId == from.groupChatId && n.opts == []
    ensures Contains(n.body, ChatAddress(from.groupChatId, suffix))
  {
    var format := GetLocalizedMessage(from.locale, "show_chat_addr");
    assert OccursAt(FormatString(format, ChatAddress(from.groupChatId, suffix)), ChatAddress(from.groupChatId, suffix), ArgStart(format));
    NDRequest(from.groupChatId,
      FormatString(GetLocalizedMessage(from.locale, "show_chat_addr"), ChatAddress(from.groupChatId, suffix)), [])
  }

  /** A user command that switches the mute state: an admin's `/mute` or `/unmute`. */
  predicate ChangesMute(req: CommandRequest) {
    && req.command.commandType == CommandTypeUser
    && IsAdmin(req.from)
    && ParseCommand(req.command.body) in {MuteCommand, UnmuteCommand}
  }

  /** The reply a user command gets from the mute branch, before it is built. */
  function MuteAnswer(req: CommandRequest, wasMuted: bool, saved: bool): (answer: seq<NDRequest>)
    ensures |answer| <= 1
  {
    var command := ParseCommand(req.command.body);
    if command == MuteCommand || command == UnmuteCommand then
      [Notice(req.from, MessageId(MuteReplyOf(IsAdmin(req.from), command == MuteCommand, wasMuted, saved)))]
    else []
  }

  /** The chat-address reply a user command gets, before it is built: an admin's
      chat-address command only. */
  function AddressAnswer(req: CommandRequest, chatAddrCommand: string, suffix: string): (answer: seq<NDRequest>)
    ensures |answer| <= 1
  {
    if ParseCommand(req.command.body) == chatAddrCommand && IsAdmin(req.from) then [AddressReply(req.from, suffix)]
    else []
  }

  /** The replies sent for a command, in order, from whether the chat was muted
      before and whether the save succeeds. A reply whose request the client
      refuses to build ends the handler. */
  function Replies(req: CommandRequest, chatAddrCommand: string, suffix: string,
                   buildError: NDRequest -> Option<string>, wasMuted: bool, saved: bool): (sent: seq<NDRequest>)
    ensures req.command.commandType != CommandTypeUser ==> sent == []
    ensures |sent| <= 2
    ensures forall n | n in sent :: buildError(n).None?
  {
    if req.command.commandType != CommandTypeUser then []
    else
      var answer := MuteAnswer(req, wasMuted, saved);
      var address := AddressAnswer(req, chatAddrCommand, suffix);
      if answer != [] && buildError(answer[0]).Some? then []
      else answer + (if address != [] && buildError(address[0]).None? then address else [])
  }

  /** Every reply goes to the sender's chat, and is a text of the message table
      or the chat-address reply, which only an admin gets. */
  lemma RepliesToSender(req: CommandRequest, chatAddrCommand: string, suffix: string,
                        buildError: NDRequest -> Option<string>, wasMuted: bool, saved: bool)
    ensures var sent := Replies(req, chatAddrCommand, suffix, buildError, wasMuted, saved);
      && |sent| <= 2
      && forall n | n in sent ::
        && n.chatId == req.from.groupChatId
        && (n.body in LocalizedMessages.Values || (IsAdmin(req.from) && n == AddressReply(req.from, suffix)))
  {
    var sent := Replies(req, chatAddrCommand, suffix, buildError, wasMuted, saved);
    if req.command.commandType == CommandTypeUser {
      var command := ParseCommand(req.command.body);
      if command == MuteCommand || command == UnmuteCommand {
        var key := MessageId(MuteReplyOf(IsAdmin(req.from), command == MuteCommand, wasMuted, saved));
        CommandIdLower(key);
        CommandMessagesFound(req.from.locale, key);
      }
    }
  }

  /** A sender who is not an admin gets at most the "not_admin" reply. */
  lemma NonAdminReplies(req: CommandRequest, chatAddrCommand: string, suffix: string,
                        buildError: NDRequest -> Option<string>, wasMuted: bool, saved: bool)
    requires !IsAdmin(req.from)
    ensures var sent := Replies(req, chatAddrCommand, suffix, buildError, wasMuted, saved);
      sent == [] || sent == [Notice(req.from, MessageId(NotAdmin))]
  {
  }

  /** `/mute` and `/unmute` always get a reply, unless its request cannot be built;
      the first notice sent is the reply for the sender's rights, the command,
      the chat's previous state and the save. */
  lemma MuteCommandsAnswered(req: CommandRequest, chatAddrCommand: string, suffix: string,
                             buildError: NDRequest -> Option<string>, wasMuted: bool, saved: bool)
    requires req.command.commandType == CommandTypeUser
    requires ParseCommand(req.command.body) in {MuteCommand, UnmuteCommand}
    ensures var sent := Replies(req, chatAddrCommand, suffix, buildError, wasMuted, saved);
      var reply := MuteReplyOf(IsAdmin(req.from), ParseCommand(req.command.body) == MuteCommand, wasMuted, saved);
      && (sent == [] <==> buildError(Notice(req.from, MessageId(reply))).Some?)
      && (sent != [] ==> sent[0] == Notice(req.from, MessageId(reply)))
  {
  }

  /** The notice an admin's `/mute` or `/unmute` sends tells the chat's state
      after the command: a "muted" text exactly when the chat is muted and no
      error occurred, an "unmuted" text exactly when it is not, and the error
      text exactly when the change asked for did not take effect. */
  lemma AdminNoticeTellsState(req: CommandRequest, chatAddrCommand: string, suffix: string,
                              buildError: NDRequest -> Option<string>, wasMuted: bool, saved: bool)
    requires ChangesMute(req)
    requires Replies(req, chatAddrCommand, suffix, buildError, wasMuted, saved) != []
    ensures var mute := ParseCommand(req.command.body) == MuteCommand;
      var nowMuted := if wasMuted != mute && saved then mute else wasMuted;
      exists reply: MuteReply ::
        && Replies(req, chatAddrCommand, suffix, buildError, wasMuted, saved)[0] == Notice(req.from, MessageId(reply))
        && (reply in {Muted, NotChangedMuted} <==> nowMuted && !reply.Failed?)
        && (reply in {Unmuted, NotChangedUnmuted} <==> !nowMuted && !reply.Failed?)
        && (reply.Failed? <==> nowMuted == wasMuted && nowMuted != mute)
  {
    var mute := ParseCommand(req.command.body) == MuteCommand;
    MuteCommandsAnswered(req, chatAddrCommand, suffix, buildError, wasMuted, saved);
    ReplyTellsState(mute, wasMuted, saved);
    var reply := MuteReplyOf(true, mute, wasMuted, saved);
    assert Replies(req, chatAddrCommand, suffix, buildError, wasMuted, saved)[0] == Notice(req.from, MessageId(reply));
  }

  /** What switching the mute state of `id` does to the muted set and the
      files: nothing when the chat is in the asked state already; otherwise the
      new set is saved, and it takes effect in memory exactly when the save
      succeeds. `written` is the order the save wrote the entries in. */
  ghost predicate MuteSwitched(muted: set<string>, files: map<string, string>,
                               muted': set<string>, files': map<string, string>,
                               file: string, tag: string, fault: Option<SaveFault>,
                               id: string, mute: bool, written: seq<string>)
  {
    var target := if mute then muted + {id} else muted - {id};
    if (id in muted) == mute then muted' == muted && files' == files
    else
      && Enumerates(written, target)
      && files' == SaveOutcome(files, file, tag, Join(written), fault).files
      && muted' == (if SaveSucceeds(files, file, tag, fault) then target else muted)
  }

  /** After a switch the chat is muted exactly when it was asked to be and the
      save succeeded, or it was muted before and no change took effect; every
      other chat keeps its state. */
  lemma SwitchOutcome(muted: set<string>, files: map<string, string>,
                      muted': set<string>, files': map<string, string>,
                      file: string, tag: string, fault: Option<SaveFault>,
                      id: string, mute: bool, written: seq<string>)
    requires MuteSwitched(muted, files, muted', files', file, tag, fault, id, mute, written)
    ensures id in muted' <==>
      if (id in muted) != mute && SaveSucceeds(files, file, tag, fault) then mute else id in muted
    ensures forall other | other != id :: other in muted' <==> other in muted
  {
  }

  /** The admin branch of `/mute` and `/unmute`: `SetMute` of the chat's id,
      and the reply its result calls for. */
  method SwitchMute(mm: MuteManager, id: string, mute: bool, fault: Option<SaveFault>, tempTag: string)
    returns (response: MuteReply, ghost written: seq<string>)
    requires mm.Valid()
    modifies mm, mm.fs
    ensures mm.Valid()
    ensures response == MuteReplyOf(true, mute, id in old(mm.Muted()), SaveSucceeds(old(mm.fs.files), mm.file, tempTag, fault))
    ensures MuteSwitched(old(mm.Muted()), old(mm.fs.files), mm.Muted(), mm.fs.files, mm.file, tempTag, fault, id, mute, written)
  {
    ghost var files := mm.fs.files;
    ghost var wasMuted := mm.GetMute(id);
    var changed, err;
    changed, err, written := mm.SetMute(id, mute, fault, tempTag);
    if wasMuted != mute {
      SaveOutcomeSuccess(files, mm.file, tempTag, Join(written), fault);
    }
    if err.Some? {
      response := Failed;
    } else if !changed {
      if mute {
        response := NotChangedMuted;
      } else {
        response := NotChangedUnmuted;
      }
    } else {
      if mute {
        response := Muted;
      } else {
        response := Unmuted;
      }
    }
  }

  /** The `/mute` and `/unmute` branch: "not_admin" for a sender who is not an
      admin, whose command leaves the store alone; otherwise the switch. */
  method AnswerMute(from: From, mute: bool, mm: MuteManager, fault: Option<SaveFault>, tempTag: string)
    returns (response: string, ghost written: seq<string>)
    requires mm.Valid()
    modifies mm, mm.fs
    ensures mm.Valid()
    ensures response == MessageId(MuteReplyOf(IsAdmin(from), mute, ToString(from.groupChatId) in old(mm.Muted()),
                                              SaveSucceeds(old(mm.fs.files), mm.file, tempTag, fault)))
    ensures !IsAdmin(from) ==> mm.Muted() == old(mm.Muted()) && mm.fs.files == old(mm.fs.files)
    ensures IsAdmin(from) ==>
      MuteSwitched(old(mm.Muted()), old(mm.fs.files), mm.Muted(), mm.fs.files, mm.file, tempTag, fault,
                   ToString(from.groupChatId), mute, written)
  {
    written := [];
    response := "";
    if !(from.isAdmin || from.chatType == ChatTypeChat) {
      response := MessageId(NotAdmin);
    } else {
      var reply;
      reply, written := SwitchMute(mm, ToString(from.groupChatId), mute, fault, tempTag);
      response := MessageId(reply);
    }
  }

  /** The `/mute` and `/unmute` part of the callback: the reply is built and
      sent, unless the client refuses to build it, which ends the handler. */
  method MuteBranch(req: CommandRequest, mm: MuteManager, buildError: NDRequest -> Option<string>,
                    fault: Option<SaveFault>, tempTag: string)
    returns (sent: seq<NDRequest>, stop: bool, ghost written: seq<string>)
    requires mm.Valid()
    modifies mm, mm.fs
    ensures mm.Valid()
    ensures var answer := MuteAnswer(req, ToString(req.from.groupChatId) in old(mm.Muted()),
                                     SaveSucceeds(old(mm.fs.files), mm.file, tempTag, fault));
      && (stop <==> answer != [] && buildError(answer[0]).Some?)
      && (!stop ==> sent == answer)
    ensures !(IsAdmin(req.from) && ParseCommand(req.command.body) in {MuteCommand, UnmuteCommand}) ==>
      mm.Muted() == old(mm.Muted()) && mm.fs.files == old(mm.fs.files)
    ensures IsAdmin(req.from) && ParseCommand(req.command.body) in {MuteCommand, UnmuteCommand} ==>
      MuteSwitched(old(mm.Muted()), old(mm.fs.files), mm.Muted(), mm.fs.files, mm.file, tempTag, fault,
                   ToString(req.from.groupChatId), ParseCommand(req.command.body) == MuteCommand, written)
  {
    written := [];
    sent, stop := [], false;
    var command := ParseCommand(req.command.body);
    if command == MuteCommand || command == UnmuteCommand {
      var response;
      response, written := AnswerMute(req.from, command == MuteCommand, mm, fault, tempTag);
      if response != "" {
        var message := Notice(req.from, response);
        if buildError(message).Some? {
          return [], true, written;
        }
        sent := [message];
      }
    }
  }

  /** The chat-address part of the callback: an admin's chat-address command
      gets the chat's address, unless the client refuses to build the reply. */
  method AddressBranch(req: CommandRequest, chatAddrCommand: string, suffix: string,
                       buildError: NDRequest -> Option<string>)
    returns (sent: seq<NDRequest>)
    ensures var address := AddressAnswer(req, chatAddrCommand, suffix);
      sent == if address != [] && buildError(address[0]).None? then address else []
  {
    sent := [];
    var command := ParseCommand(req.command.body);
    if command == chatAddrCommand && IsAdmin(req.from) {
      var message := AddressReply(req.from, suffix);
      if buildError(message).Some? {
        return;
      }
      sent := [message];
    }
  }

  /** `NewCommandHandler`'s callback, for one command: the admin test, the
      command word, the mute switch with its reply, then the chat address. The
      mute store is changed only by an admin's `/mute` or `/unmute`, exactly as
      `SetMute` of the chat's id does. */
  method HandleCommand(req: CommandRequest, mm: MuteManager, chatAddrCommand: string, suffix: string,
                       buildError: NDRequest -> Option<string>, fault: Option<SaveFault>, tempTag: string)
    returns (sent: seq<NDRequest>, ghost written: seq<string>)
    requires mm.Valid()
    modifies mm, mm.fs
    ensures mm.Valid()
    ensures sent == Replies(req, chatAddrCommand, suffix, buildError, ToString(req.from.groupChatId) in old(mm.Muted()),
                            SaveSucceeds(old(mm.fs.files), mm.file, tempTag, fault))
    ensures !ChangesMute(req) ==> mm.Muted() == old(mm.Muted()) && mm.fs.files == old(mm.fs.files)
    ensures ChangesMute(req) ==>
      MuteSwitched(old(mm.Muted()), old(mm.fs.files), mm.Muted(), mm.fs.files, mm.file, tempTag, fault,
                   ToString(req.from.groupChatId), ParseCommand(req.command.body) == MuteCommand, written)
  {
    written := [];
    sent := [];
    if req.command.commandType != CommandTypeUser {
      return;
    }
    var stop;
    sent, stop, written := MuteBranch(req, mm, buildError, fault, tempTag);
    if stop {
      return [], written;
    }
    var shown := AddressBranch(req, chatAddrCommand, suffix, buildError);
    sent := sent + shown;
  }
}

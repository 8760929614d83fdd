/** The gateway's wiring: the send API's token and mute checks read the token
    and mute stores, the mute store is opened at start-up, and the chat address
    the bot's command shows leads back to that chat through the send API. */
module Sendyxmail {
  import opened Wrappers
  import opened Text
  import opened Uuid
  import opened BotModels
  import opened ApiV0
  import opened MuteManager
  import opened TokenManager
  import opened CommandHandler

  const TokenNotRegisteredText := "token not registered in token manager"
  const MutedText := "bot is muted in this chat"

  /** `checkToken`: a token passes exactly when the token store holds it. */
  function CheckToken(tokens: set<string>): (check: Check)
    ensures forall token :: check(token).None? <==> token in tokens
    ensures forall token :: check(token).Some? ==> check(token).value == TokenNotRegisteredText
  {
    token => if token in tokens then None else Some(TokenNotRegisteredText)
  }

  /** `checkAllowedSend`: an address or chat id is refused exactly when it is muted. */
  function CheckAllowedSend(muted: set<string>): (check: Check)
    ensures forall ident :: check(ident).Some? <==> ident in muted
    ensures forall ident :: check(ident).Some? ==> check(ident).value == MutedText
  {
    ident => if ident in muted then Some(MutedText) else None
  }

  /** The send API as the gateway configures it, over the current contents of
      the two stores. */
  function Config(bot: Bot, tokens: set<string>, muted: set<string>): (cfg: APIConfig)
    ensures cfg.checkBearerToken.Some? && cfg.checkAllowedSend.Some?
  {
    APIConfig(bot, GroupSuffix, Some(CheckToken(tokens)), Some(CheckAllowedSend(muted)))
  }

  /** A request is let through exactly when its bearer token is non-empty and
      registered in the token store. */
  lemma TokenAuthentication(tm: TokenManager, bot: Bot, muted: set<string>, authHeader: string)
    ensures var token := ExtractBearerToken(authHeader);
      AuthenticateClient(Config(bot, tm.tokens.Keys, muted), authHeader).Authenticated? <==>
        token != "" && tm.HasToken(token)
  {
  }

  /** Canonical UUID text has no upper-case letters. */
  lemma CanonicalIsLower(s: string)
    requires IsCanonical(s)
    ensures IsLower(s)
  {
  }

  /** The chat address shown by the bot, sent to the send API, reaches that same
      chat with no user lookup and no chat creation: once past the first mute
      gate, the request is delivered to the chat id. */
  lemma ShownAddressResolves(cfg: APIConfig, parseAddress: string -> Option<string>, req: Request, mode: Mode,
                             chatId: UUID, lookup: string -> Result<seq<User>, string>, create: User -> Result<UUID, string>)
    requires IsLower(cfg.groupChatMailSuffix)
    requires req.body.Some? && parseAddress(req.body.value.to) == Some(ChatAddress(chatId, cfg.groupChatMailSuffix))
    requires Gate(cfg, ChatAddress(chatId, cfg.groupChatMailSuffix)).None?
    ensures HandlePostMessage(cfg, parseAddress, req, mode) == Deliver(cfg, chatId, req.body.value, req.metadata, mode)
    ensures HandlePostMessage(cfg.(bot := cfg.bot.(findUsersByMails := lookup, createChatWithUser := create)), parseAddress, req, mode)
      == HandlePostMessage(cfg, parseAddress, req, mode)
  {
    var id := ToString(chatId);
    var addr := ChatAddress(chatId, cfg.groupChatMailSuffix);
    CanonicalIsLower(id);
    LowerConcat(id, cfg.groupChatMailSuffix);
    ToLowerOfLower(addr);
    assert CutSuffix(addr, cfg.groupChatMailSuffix).0 == id;
    GroupAddressDelivery(cfg, parseAddress, req, mode);
    ParseToString(chatId);
    var other := cfg.(bot := cfg.bot.(findUsersByMails := lookup, createChatWithUser := create));
    GroupAddressDelivery(other, parseAddress, req, mode);
  }

  /** A muted chat gets nothing through its shown address: the send API answers
      451 "bot is muted in this chat" and dispatches nothing, whichever gate
      stops it. */
  lemma MutedChatRefused(bot: Bot, tokens: set<string>, muted: set<string>,
                         parseAddress: string -> Option<string>, req: Request, mode: Mode, chatId: UUID)
    requires ToString(chatId) in muted
    requires req.body.Some? && parseAddress(req.body.value.to) == Some(ChatAddress(chatId, GroupSuffix))
    ensures HandlePostMessage(Config(bot, tokens, muted), parseAddress, req, mode)
      == Respond(Reply(StatusUnavailableForLegalReasons, MutedText), None)
  {
    var cfg := Config(bot, tokens, muted);
    var addr := ChatAddress(chatId, GroupSuffix);
    if addr !in muted {
      GroupSuffixLower();
      ShownAddressResolves(cfg, parseAddress, req, mode, chatId, bot.findUsersByMails, bot.createChatWithUser);
    } else {
      GroupSuffixLower();
      CanonicalIsLower(ToString(chatId));
      LowerConcat(ToString(chatId), GroupSuffix);
      ToLowerOfLower(addr);
    }
  }

  /** A user's address that is not muted itself still gets nothing through when
      the chat the platform opens with that user is muted: the second gate
      answers 451 "bot is muted in this chat" and dispatches nothing. */
  lemma MutedUserChatRefused(bot: Bot, tokens: set<string>, muted: set<string>,
                             parseAddress: string -> Option<string>, req: Request, mode: Mode,
                             user: User, chatId: UUID)
    requires req.body.Some? && parseAddress(req.body.value.to).Some?
    requires var addr := ToLower(parseAddress(req.body.value.to).value);
      && addr !in muted
      && !CutSuffix(addr, GroupSuffix).1
      && bot.findUsersByMails(addr) == Success([user])
    requires user.userKind == CtsUserKind
    requires bot.createChatWithUser(user) == Success(chatId)
    requires ToString(chatId) in muted
    ensures HandlePostMessage(Config(bot, tokens, muted), parseAddress, req, mode)
      == Respond(Reply(StatusUnavailableForLegalReasons, MutedText), None)
  {
    var cfg := Config(bot, tokens, muted);
    var address := parseAddress(req.body.value.to).value;
    assert ResolveChat(cfg, address, ToLower(address)) == Resolved(chatId);
  }

  /** After an admin's `/mute` that took effect, or found the chat muted already,
      every send to the chat's shown address is refused with 451: the command
      mutes the very key the send API's second gate checks. */
  lemma MuteCommandStopsSends(muted: set<string>, files: map<string, string>,
                              muted': set<string>, files': map<string, string>,
                              file: string, tag: string, fault: Option<SaveFault>, written: seq<string>,
                              bot: Bot, tokens: set<string>,
                              parseAddress: string -> Option<string>, req: Request, mode: Mode, chatId: UUID)
    requires MuteSwitched(muted, files, muted', files', file, tag, fault, ToString(chatId), true, written)
    requires ToString(chatId) in muted || SaveSucceeds(files, file, tag, fault)
    requires req.body.Some? && parseAddress(req.body.value.to) == Some(ChatAddress(chatId, GroupSuffix))
    ensures HandlePostMessage(Config(bot, tokens, muted'), parseAddress, req, mode)
      == Respond(Reply(StatusUnavailableForLegalReasons, MutedText), None)
  {
    SwitchOutcome(muted, files, muted', files', file, tag, fault, ToString(chatId), true, written);
    MutedChatRefused(bot, tokens, muted', parseAddress, req, mode, chatId);
  }

  /** Start-up of the mute store: open it; if its file does not exist, create
      the file empty and open it again. Any other failure, or a second failure,
      stops the gateway. */
  method OpenMuteStore(file: string, cwd: Option<string>, fs: Disk, fault: Option<LoadFault>,
                       createFails: bool, retryFault: Option<LoadFault>)
    returns (mm: MuteManager?, err: Option<IoError>)
    modifies fs
    ensures mm != null <==> err.None?
    ensures mm != null ==>
      && fresh(mm) && mm.fs == fs && AbsPath(file, cwd) == Some(mm.file)
      && mm.Valid() && mm.Synced()
    ensures AbsPath(file, cwd).None? ==> err == Some(NoWorkingDirectory) && fs.files == old(fs.files)
    ensures AbsPath(file, cwd).Some? && AbsPath(file, cwd).value in old(fs.files) ==>
      fs.files == old(fs.files) && (err.None? <==> fault.None?)
    ensures var path := AbsPath(file, cwd);
      path.Some? && IsAbs(path.value) && path.value !in old(fs.files) ==>
        && fs.files == (if createFails then old(fs.files) else old(fs.files)[path.value := ""])
        && (err.None? <==> !createFails && retryFault.None?)
        && (mm != null ==> mm.Muted() == {})
  {
    mm, err := MuteManager.New(file, cwd, fs, fault);
    if err.Some? && err.value.NotExist? {
      if !createFails {
        fs.files := fs.files[err.value.path := ""];
      }
      mm, err := MuteManager.New(file, cwd, fs, retryFault);
      if mm != null {
        assert ScanLines("") == [];
      }
    }
  }
}

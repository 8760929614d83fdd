/**
 * The HTTP send pipeline (apiv0/apiv0.go): bearer-token authentication, the
 * two mute gates around address resolution, button assembly and the choice
 * between asynchronous and synchronous dispatch.
 *
 * The collaborators the handler consults (token check, mute check, the mail
 * address parser and the platform client) appear as functions from the
 * question asked to the answer given, so each request is one computation.
 */
module ApiV0 {
  import opened Wrappers
  import opened Text
  import opened Uuid
  import opened Models
  import opened BotModels

  const StatusCreated := 201
  const StatusAccepted := 202
  const StatusUnauthorized := 401
  const StatusNotFound := 404
  const StatusExpectationFailed := 417
  const StatusUnprocessableEntity := 422
  const StatusPreconditionRequired := 428
  const StatusUnavailableForLegalReasons := 451
  const StatusInternalServerError := 500
  const StatusServiceUnavailable := 503

  /** A check hook (Go's `func(string) error`): `None` accepts, `Some(e)`
      rejects with the error text `e`. */
  type Check = string -> Option<string>

  datatype Mode = Async | Sync

  /** A notification handed to the platform client, with the call used. */
  datatype Dispatch = Dispatch(request: NDRequest, mode: Mode)

  /** The platform client calls the handler makes (`*bot.Bot`), each given by
      the answer it returns. */
  datatype Bot = Bot(
    findUsersByMails: string -> Result<seq<User>, string>,
    createChatWithUser: User -> Result<UUID, string>,
    newNDRequestError: NDRequest -> Option<string>,
    sendMessage: Dispatch -> Option<string>)

  /** `APIConfig`; the metadata secret is not part of this model. */
  datatype APIConfig = APIConfig(
    bot: Bot,
    groupChatMailSuffix: string,
    checkBearerToken: Option<Check>,
    checkAllowedSend: Option<Check>)

  /** The two send routes: `/message` and `/message/with-status`. */
  datatype Route = PostMessage | PostMessageWithStatus

  datatype Reply = Reply(status: int, result: string)

  /** How a request ends: a JSON reply together with the notification handed
      to the platform client, if any; or an error returned to the server,
      which answers it with status 500. */
  datatype Outcome =
    | Respond(reply: Reply, dispatched: Option<Dispatch>)
    | Fault(error: string)

  /** The request as the handlers see it: the Authorization header, the body
      as decoded by the JSON parser (`None` when it does not parse), and the
      sealed caller metadata the metadata middleware stored in the context. */
  datatype Request = Request(authorization: string, body: Option<Message>, metadata: string)

  // ---------------------------------------------------------------------------
  // Authentication (apiv0.go:199-229)

  /** `extractBearerToken`: the text after a case-insensitive "bearer" at the
      start of the trimmed header, trimmed; "" when there is none. */
  function ExtractBearerToken(authHeader: string): (token: string)
    ensures IsTrimmed(token)
    ensures token != "" ==>
      var h := TrimSpace(authHeader);
      |h| >= 7 && EqualFold(h[..6], "bearer") && |token| <= |h| - 6
  {
    var h := TrimSpace(authHeader);
    if |h| < 7 || !EqualFold(h[..6], "bearer") then "" else TrimSpace(h[6..])
  }

  /** A scheme matching "bearer" in any case starts with a 'b' or a 'B'. */
  lemma SchemeInitial(scheme: string)
    requires EqualFold(scheme, "bearer")
    ensures |scheme| == 6 && (scheme[0] == 'b' || scheme[0] == 'B')
  {
    assert ToLower(scheme)[0] == ToLower("bearer")[0] == 'b';
  }

  /** The white space around a bearer header is trimmed off. */
  lemma BearerHeaderTrimmed(lead: string, scheme: string, gap: string, token: string, trail: string)
    requires AllSpace(lead) && AllSpace(trail)
    requires EqualFold(scheme, "bearer")
    requires token != [] && IsTrimmed(token)
    ensures TrimSpace(lead + scheme + gap + token + trail) == scheme + gap + token
  {
    var core := scheme + gap + token;
    assert lead + scheme + gap + token + trail == lead + core + trail;
    SchemeInitial(scheme);
    assert IsTrimmed(core);
    TrimSpacePadded(lead, core, trail);
  }

  /** A header made of white space, a "bearer" of any case, optional white space,
      a token and white space yields exactly that token; no separator is needed
      after the scheme. */
  lemma BearerTokenOfHeader(lead: string, scheme: string, gap: string, token: string, trail: string)
    requires AllSpace(lead) && AllSpace(gap) && AllSpace(trail)
    requires EqualFold(scheme, "bearer")
    requires token != [] && IsTrimmed(token)
    ensures ExtractBearerToken(lead + scheme + gap + token + trail) == token
  {
    BearerHeaderTrimmed(lead, scheme, gap, token, trail);
    var core := scheme + gap + token;
    SchemeInitial(scheme);
    assert core[..6] == scheme;
    assert core[6..] == gap + token + [];
    TrimSpacePadded(gap, token, []);
  }

  /** A trimmed header that does not start with "bearer" (any case) carries no token. */
  lemma NoSchemeNoToken(authHeader: string)
    requires var h := TrimSpace(authHeader); |h| < 7 || !EqualFold(h[..6], "bearer")
    ensures ExtractBearerToken(authHeader) == ""
  {
  }

  const MissingTokenText := "required 'Authorization: Bearer <token>' header"
  const RejectedTokenText := "provided token is not authorized"
  const NoTokenCheckText := "token check function not configured"

  datatype AuthResult = Authenticated(token: string) | Unauthorized(reply: Reply) | NotConfigured

  /** `authenticateClient`: a missing check is a server error; an empty token is
      refused before the check is asked; a token the check rejects is refused. */
  function AuthenticateClient(cfg: APIConfig, authHeader: string): (r: AuthResult)
    ensures r.NotConfigured? <==> cfg.checkBearerToken.None?
    ensures var token := ExtractBearerToken(authHeader);
      && (cfg.checkBearerToken.Some? && token == "" ==> r == Unauthorized(Reply(StatusUnauthorized, MissingTokenText)))
      && (r.Authenticated? <==> cfg.checkBearerToken.Some? && token != "" && cfg.checkBearerToken.value(token).None?)
      && (r.Authenticated? ==> r.token == token)
    ensures r.Unauthorized? ==> r.reply.status == StatusUnauthorized
  {
    match cfg.checkBearerToken
    case None => NotConfigured
    case Some(check) =>
      var token := ExtractBearerToken(authHeader);
      if token == "" then Unauthorized(Reply(StatusUnauthorized, MissingTokenText))
      else if check(token).Some? then Unauthorized(Reply(StatusUnauthorized, RejectedTokenText))
      else Authenticated(token)
  }

  // ---------------------------------------------------------------------------
  // Address resolution (apiv0.go:101-143)

  /** The mute gate: `CheckAllowedSend`, when configured. */
  function Gate(cfg: APIConfig, ident: string): (refusal: Option<string>)
    ensures cfg.checkAllowedSend.None? ==> refusal.None?
    ensures cfg.checkAllowedSend.Some? ==> refusal == cfg.checkAllowedSend.value(ident)
  {
    match cfg.checkAllowedSend
    case None => None
    case Some(check) => check(ident)
  }

  const CtsUserKind := "cts_user"

  /** How address resolution ends: a chat, a final reply, or a group address
      whose prefix is not a canonical UUID (with what the parser returned). */
  datatype Resolution =
    | Resolved(chatId: UUID)
    | Refused(reply: Reply)
    | Unrecognized(reply: Reply, parsed: Parsed)

  function NatToString(n: nat): string {
    if n < 10 then [Digit(n)] else NatToString(n / 10) + [Digit(n % 10)]
  }

  function ParseErrorText(e: Option<ParseError>): string {
    match e
    case Some(InvalidLength(n)) => "invalid UUID length: " + NatToString(n)
    case Some(InvalidUrnPrefix(p)) => "invalid urn prefix: \"" + p + "\""
    case Some(InvalidFormat) => "invalid UUID format"
    case None => "not in canonical form"
  }

  function UnrecognizedText(prefix: string, address: string, parsed: Parsed): string {
    "chat_id '" + prefix + "' in address '<" + address + ">' is not recognized as UUID: " + ParseErrorText(parsed.err)
  }

  /** The target chat of a lower-cased address: with the group suffix the prefix
      itself names the chat; otherwise the platform is asked for the one user
      with that address, and for a chat with that user. */
  function ResolveChat(cfg: APIConfig, address: string, addr: string): (r: Resolution)
    ensures r.Unrecognized? ==>
      && CutSuffix(addr, cfg.groupChatMailSuffix).1
      && r.parsed == Parse(CutSuffix(addr, cfg.groupChatMailSuffix).0)
      && r.reply.status == StatusUnprocessableEntity
    ensures r.Refused? ==> !CutSuffix(addr, cfg.groupChatMailSuffix).1
  {
    var (addrPrefix, ok) := CutSuffix(addr, cfg.groupChatMailSuffix);
    if !ok then
      match cfg.bot.findUsersByMails(addr)
      case Failure(e) => Refused(Reply(StatusInternalServerError, e))
      case Success(users) =>
        if |users| <= 0 then Refused(Reply(StatusNotFound, "no users found"))
        else if |users| != 1 then Refused(Reply(StatusExpectationFailed, "found more than one recepients"))
        else if users[0].userKind != CtsUserKind then Refused(Reply(StatusPreconditionRequired, "user is not cts_user"))
        else
          match cfg.bot.createChatWithUser(users[0])
          case Failure(e) => Refused(Reply(StatusServiceUnavailable, e))
          case Success(chatId) => Resolved(chatId)
    else
      var parsed := Parse(addrPrefix);
      if ToString(parsed.id) != addrPrefix then
        Unrecognized(Reply(StatusUnprocessableEntity, UnrecognizedText(addrPrefix, address, parsed)), parsed)
      else
        Resolved(parsed.id)
  }

  /** With the group suffix, the prefix before it is the chat: the address resolves
      exactly when the prefix is canonical UUID text, to the UUID written by it, and
      the platform client is never consulted. */
  lemma GroupAddressRouting(cfg: APIConfig, address: string, addr: string, other: Bot)
    requires CutSuffix(addr, cfg.groupChatMailSuffix).1
    ensures var prefix := CutSuffix(addr, cfg.groupChatMailSuffix).0;
      && prefix + cfg.groupChatMailSuffix == addr
      && (ResolveChat(cfg, address, addr).Resolved? <==> IsCanonical(prefix))
      && (ResolveChat(cfg, address, addr).Resolved? ==> ToString(ResolveChat(cfg, address, addr).chatId) == prefix)
      && (!IsCanonical(prefix) ==>
            ResolveChat(cfg, address, addr).Unrecognized?
            && ResolveChat(cfg, address, addr).reply.status == StatusUnprocessableEntity)
      && ResolveChat(cfg, address, addr) == ResolveChat(cfg.(bot := other), address, addr)
  {
    var prefix := CutSuffix(addr, cfg.groupChatMailSuffix).0;
    RoundTripIffCanonical(prefix);
  }

  /** Without the group suffix, the user lookup decides: an error is 500, no user
      404, several 417, a user of another kind 428, a failed chat creation 503,
      and only a single "cts_user" with a created chat resolves. */
  lemma UserAddressRouting(cfg: APIConfig, address: string, addr: string)
    requires !CutSuffix(addr, cfg.groupChatMailSuffix).1
    ensures var r := ResolveChat(cfg, address, addr);
      match cfg.bot.findUsersByMails(addr)
      case Failure(e) => r == Refused(Reply(StatusInternalServerError, e))
      case Success(users) =>
        if users == [] then r.Refused? && r.reply.status == StatusNotFound
        else if |users| > 1 then r.Refused? && r.reply.status == StatusExpectationFailed
        else if users[0].userKind != "cts_user" then r.Refused? && r.reply.status == StatusPreconditionRequired
        else match cfg.bot.createChatWithUser(users[0])
             case Failure(e) => r == Refused(Reply(StatusServiceUnavailable, e))
             case Success(chatId) => r == Resolved(chatId)
  {
  }

  // ---------------------------------------------------------------------------
  // Message assembly (apiv0.go:145-177)

  /** The order in which the handler adds button options. */
  function Rank(o: NDButtonOption): nat {
    match o
    case ContentAlign(_) => 0
    case FontColor(_) => 1
    case BackgroundColor(_) => 2
    case Alert(_) => 3
    case HorizontalSize(_) => 4
  }

  /** An option carries the value of the button field it comes from. */
  predicate Carries(b: Button, o: NDButtonOption) {
    match o
    case ContentAlign(a) => a == b.textAlign
    case FontColor(c) => c == b.textColor
    case BackgroundColor(c) => c == b.backgroundColor
    case Alert(t) => t == b.alertText
    case HorizontalSize(n) => n == b.horizontalSize
  }

  /** The options of one button, added field by field as the handler does. */
  function ButtonOptions(b: Button): seq<NDButtonOption> {
    (if b.textAlign != "" then [ContentAlign(b.textAlign)] else [])
    + (if b.textColor != "" then [FontColor(b.textColor)] else [])
    + (if b.backgroundColor != "" then [BackgroundColor(b.backgroundColor)] else [])
    + (if b.alertText != "" then [Alert(b.alertText)] else [])
    + (if b.horizontalSize != 0 then [HorizontalSize(b.horizontalSize)] else [])
  }

  /** Strictly increasing ranks, hence also no option twice. */
  predicate Ascending(opts: seq<NDButtonOption>) {
    forall i, j :: 0 <= i < j < |opts| ==> Rank(opts[i]) < Rank(opts[j])
  }

  predicate RanksBelow(opts: seq<NDButtonOption>, k: nat) {
    forall i :: 0 <= i < |opts| ==> Rank(opts[i]) < k
  }

  lemma AppendAscending(p: seq<NDButtonOption>, q: seq<NDButtonOption>, k: nat)
    requires Ascending(p) && RanksBelow(p, k)
    requires q == [] || (|q| == 1 && Rank(q[0]) == k)
    ensures Ascending(p + q) && RanksBelow(p + q, k + 1)
  {
  }

  /** A button gets an option for each given field: a non-empty string or a
      non-zero size. */
  lemma ButtonOptionsPresent(b: Button)
    ensures var opts := ButtonOptions(b);
      && (ContentAlign(b.textAlign) in opts <==> b.textAlign != "")
      && (FontColor(b.textColor) in opts <==> b.textColor != "")
      && (BackgroundColor(b.backgroundColor) in opts <==> b.backgroundColor != "")
      && (Alert(b.alertText) in opts <==> b.alertText != "")
      && (HorizontalSize(b.horizontalSize) in opts <==> b.horizontalSize != 0)
  {
    var p0: seq<NDButtonOption> := if b.textAlign != "" then [ContentAlign(b.textAlign)] else [];
    var p1: seq<NDButtonOption> := if b.textColor != "" then [FontColor(b.textColor)] else [];
    var p2: seq<NDButtonOption> := if b.backgroundColor != "" then [BackgroundColor(b.backgroundColor)] else [];
    var p3: seq<NDButtonOption> := if b.alertText != "" then [Alert(b.alertText)] else [];
    var p4: seq<NDButtonOption> := if b.horizontalSize != 0 then [HorizontalSize(b.horizontalSize)] else [];
    assert ButtonOptions(b) == p0 + p1 + p2 + p3 + p4;
    assert forall o :: o in ButtonOptions(b) <==> o in p0 || o in p1 || o in p2 || o in p3 || o in p4;
  }

  /** Every option of a button carries the value of the field it comes from. */
  lemma ButtonOptionsCarry(b: Button)
    ensures forall o :: o in ButtonOptions(b) ==> Carries(b, o)
  {
    var p0: seq<NDButtonOption> := if b.textAlign != "" then [ContentAlign(b.textAlign)] else [];
    var p1: seq<NDButtonOption> := if b.textColor != "" then [FontColor(b.textColor)] else [];
    var p2: seq<NDButtonOption> := if b.backgroundColor != "" then [BackgroundColor(b.backgroundColor)] else [];
    var p3: seq<NDButtonOption> := if b.alertText != "" then [Alert(b.alertText)] else [];
    var p4: seq<NDButtonOption> := if b.horizontalSize != 0 then [HorizontalSize(b.horizontalSize)] else [];
    assert ButtonOptions(b) == p0 + p1 + p2 + p3 + p4;
    assert forall o :: o in ButtonOptions(b) <==> o in p0 || o in p1 || o in p2 || o in p3 || o in p4;
  }

  /** The options of a button come in the order align, font colour, background,
      alert, size, each at most once. */
  lemma ButtonOptionsOrdered(b: Button)
    ensures Ascending(ButtonOptions(b))
  {
    var p0: seq<NDButtonOption> := if b.textAlign != "" then [ContentAlign(b.textAlign)] else [];
    var p1: seq<NDButtonOption> := if b.textColor != "" then [FontColor(b.textColor)] else [];
    var p2: seq<NDButtonOption> := if b.backgroundColor != "" then [BackgroundColor(b.backgroundColor)] else [];
    var p3: seq<NDButtonOption> := if b.alertText != "" then [Alert(b.alertText)] else [];
    var p4: seq<NDButtonOption> := if b.horizontalSize != 0 then [HorizontalSize(b.horizontalSize)] else [];
    assert ButtonOptions(b) == p0 + p1 + p2 + p3 + p4;
    AppendAscending([], p0, 0);
    assert [] + p0 == p0;
    AppendAscending(p0, p1, 1);
    AppendAscending(p0 + p1, p2, 2);
    AppendAscending(p0 + p1 + p2, p3, 3);
    AppendAscending(p0 + p1 + p2 + p3, p4, 4);
  }

  function ToNDButton(b: Button): NDButton {
    LinkButton(b.caption, b.link, ButtonOptions(b))
  }

  function RowButtons(row: ButtonRow): seq<NDButton> {
    seq(|row|, i requires 0 <= i < |row| => ToNDButton(row[i]))
  }

  /** The bubble rows for the given rows, in order, one per non-empty row. */
  function BubbleRows(rows: seq<ButtonRow>): (opts: seq<NDRequestOption>)
    ensures |opts| <= |rows|
    ensures forall k :: 0 <= k < |opts| ==> opts[k].BubbleRow? && opts[k].buttons != []
  {
    if rows == [] then []
    else
      var last := rows[|rows| - 1];
      BubbleRows(rows[..|rows| - 1]) + (if |last| > 0 then [BubbleRow(RowButtons(last))] else [])
  }

  /** Rows are converted independently and in order: the bubble rows of a
      concatenation are the concatenation of the bubble rows. */
  lemma {:induction false} BubbleRowsConcat(a: seq<ButtonRow>, b: seq<ButtonRow>)
    ensures BubbleRows(a + b) == BubbleRows(a) + BubbleRows(b)
    decreases |b|
  {
    if b == [] {
      assert a + b == a;
    } else {
      var b' := b[..|b| - 1];
      assert (a + b)[..|a + b| - 1] == a + b';
      BubbleRowsConcat(a, b');
    }
  }

  /** An empty row yields no bubble row; a non-empty one yields one row with its
      buttons in order. */
  lemma BubbleRowsOfOneRow(row: ButtonRow)
    ensures BubbleRows([row]) == if row == [] then [] else [BubbleRow(RowButtons(row))]
  {
    assert [row][..0] == [];
  }

  /** The message options: the bubble rows, then the sealed metadata, always last. */
  function RequestOptions(rows: seq<ButtonRow>, metadata: string): (opts: seq<NDRequestOption>)
    ensures |opts| >= 1 && opts[|opts| - 1] == Metadata(metadata)
    ensures forall k :: 0 <= k < |opts| - 1 ==> opts[k].BubbleRow?
  {
    BubbleRows(rows) + [Metadata(metadata)]
  }

  /** One button of the inner assembly loop: its options, field by field. */
  method BuildButton(button: Button) returns (ndButton: NDButton)
    ensures ndButton == ToNDButton(button)
  {
    ghost var p0 := if button.textAlign != "" then [ContentAlign(button.textAlign)] else [];
    ghost var p1 := if button.textColor != "" then [FontColor(button.textColor)] else [];
    ghost var p2 := if button.backgroundColor != "" then [BackgroundColor(button.backgroundColor)] else [];
    ghost var p3 := if button.alertText != "" then [Alert(button.alertText)] else [];
    ghost var p4 := if button.horizontalSize != 0 then [HorizontalSize(button.horizontalSize)] else [];
    var opts: seq<NDButtonOption> := [];
    if button.textAlign != "" {
      opts := opts + [ContentAlign(button.textAlign)];
    }
    assert opts == p0;
    if button.textColor != "" {
      opts := opts + [FontColor(button.textColor)];
    }
    assert opts == p0 + p1;
    if button.backgroundColor != "" {
      opts := opts + [BackgroundColor(button.backgroundColor)];
    }
    assert opts == p0 + p1 + p2;
    if button.alertText != "" {
      opts := opts + [Alert(button.alertText)];
    }
    assert opts == p0 + p1 + p2 + p3;
    if button.horizontalSize != 0 {
      opts := opts + [HorizontalSize(button.horizontalSize)];
    }
    assert opts == p0 + p1 + p2 + p3 + p4 == ButtonOptions(button);
    ndButton := LinkButton(button.caption, button.link, opts);
  }

  /** The inner assembly loop: the buttons of one row, in order. */
  method BuildButtonRow(row: ButtonRow) returns (ndButtonRow: seq<NDButton>)
    ensures ndButtonRow == RowButtons(row)
  {
    ndButtonRow := [];
    for j := 0 to |row|
      invariant ndButtonRow == RowButtons(row[..j])
    {
      var ndButton := BuildButton(row[j]);
      assert RowButtons(row[..j + 1]) == RowButtons(row[..j]) + [ToNDButton(row[j])];
      ndButtonRow := ndButtonRow + [ndButton];
    }
    assert row[..|row|] == row;
  }

  /** The handler's assembly loops: each non-empty row becomes a bubble row of its
      buttons, and the metadata option is appended last. */
  method BuildRequestOptions(rows: seq<ButtonRow>, metadata: string) returns (ndOpts: seq<NDRequestOption>)
    ensures ndOpts == RequestOptions(rows, metadata)
  {
    ndOpts := [];
    for i := 0 to |rows|
      invariant ndOpts == BubbleRows(rows[..i])
    {
      var row := rows[i];
      assert rows[..i + 1][..i] == rows[..i];
      if |row| > 0 {
        var ndButtonRow := BuildButtonRow(row);
        ndOpts := ndOpts + [BubbleRow(ndButtonRow)];
      }
    }
    assert rows[..|rows|] == rows;
    ndOpts := ndOpts + [Metadata(metadata)];
  }

  // ---------------------------------------------------------------------------
  // The handler (apiv0.go:80-197)

  function ModeOf(requireStatus: bool): Mode {
    if requireStatus then Sync else Async
  }

  /** From the resolved chat on: the second mute gate, message construction and
      dispatch. */
  function Deliver(cfg: APIConfig, chatId: UUID, message: Message, metadata: string, mode: Mode): (o: Outcome)
    ensures Gate(cfg, ToString(chatId)).Some? ==>
      o == Respond(Reply(StatusUnavailableForLegalReasons, Gate(cfg, ToString(chatId)).value), None)
    ensures o.Respond? && o.dispatched.None? ==> Gate(cfg, ToString(chatId)).Some?
    ensures var ndr := NDRequest(chatId, message.body, RequestOptions(message.buttons, metadata));
      && (o.Fault? <==> Gate(cfg, ToString(chatId)).None? && cfg.bot.newNDRequestError(ndr).Some?)
      && (o.Fault? ==> o.error == cfg.bot.newNDRequestError(ndr).value)
    ensures o.Respond? && o.dispatched.Some? ==>
      && o.dispatched.value.mode == mode
      && o.dispatched.value.request == NDRequest(chatId, message.body, RequestOptions(message.buttons, metadata))
      && o.reply == (match cfg.bot.sendMessage(o.dispatched.value)
                     case Some(e) => Reply(StatusServiceUnavailable, e)
                     case None => Reply(if mode == Async then StatusAccepted else StatusCreated, "OK"))
    ensures Gate(cfg, ToString(chatId)).None? ==> o.Fault? || o.dispatched.Some?
  {
    match Gate(cfg, ToString(chatId))
    case Some(e) => Respond(Reply(StatusUnavailableForLegalReasons, e), None)
    case None =>
      var ndr := NDRequest(chatId, message.body, RequestOptions(message.buttons, metadata));
      match cfg.bot.newNDRequestError(ndr)
      case Some(e) => Fault(e)
      case None =>
        var d := Dispatch(ndr, mode);
        match cfg.bot.sendMessage(d)
        case Some(e) => Respond(Reply(StatusServiceUnavailable, e), Some(d))
        case None => Respond(Reply(if mode == Async then StatusAccepted else StatusCreated, "OK"), Some(d))
  }

  /** `apiPostMessageHandler`, with the unrecognised-UUID reply ending the request. */
  function HandlePostMessage(cfg: APIConfig, parseAddress: string -> Option<string>, req: Request, mode: Mode): (o: Outcome)
    ensures req.body.None? ==> o == Respond(Reply(StatusUnprocessableEntity, "unable to parse json"), None)
    ensures req.body.Some? && parseAddress(req.body.value.to).None? ==>
      o == Respond(Reply(StatusUnprocessableEntity, "unable to parse mail address"), None)
    ensures o.Respond? && o.dispatched.Some? ==>
      req.body.Some? && o.dispatched.value.mode == mode && o.dispatched.value.request.body == req.body.value.body
  {
    match req.body
    case None => Respond(Reply(StatusUnprocessableEntity, "unable to parse json"), None)
    case Some(message) =>
      match parseAddress(message.to)
      case None => Respond(Reply(StatusUnprocessableEntity, "unable to parse mail address"), None)
      case Some(address) =>
        var addr := ToLower(address);
        match Gate(cfg, addr)
        case Some(e) => Respond(Reply(StatusUnavailableForLegalReasons, e), None)
        case None =>
          match ResolveChat(cfg, address, addr)
          case Refused(reply) => Respond(reply, None)
          case Unrecognized(reply, _) => Respond(reply, None)
          case Resolved(chatId) => Deliver(cfg, chatId, message, req.metadata, mode)
  }

  /** The handler as a sequence of steps with early returns, as in the source. */
  method PostMessageHandler(cfg: APIConfig, parseAddress: string -> Option<string>, req: Request, requireStatus: bool)
    returns (o: Outcome)
    ensures o == HandlePostMessage(cfg, parseAddress, req, ModeOf(requireStatus))
  {
    if req.body.None? {
      return Respond(Reply(StatusUnprocessableEntity, "unable to parse json"), None);
    }
    var message := req.body.value;
    var mailContact := parseAddress(message.to);
    if mailContact.None? {
      return Respond(Reply(StatusUnprocessableEntity, "unable to parse mail address"), None);
    }
    var addr := ToLower(mailContact.value);
    if cfg.checkAllowedSend.Some? {
      var err := cfg.checkAllowedSend.value(addr);
      if err.Some? {
        return Respond(Reply(StatusUnavailableForLegalReasons, err.value), None);
      }
    }
    var chatId: UUID;
    var (addrPrefix, ok) := CutSuffix(addr, cfg.groupChatMailSuffix);
    if !ok {
      var users := cfg.bot.findUsersByMails(addr);
      if users.Failure? {
        return Respond(Reply(StatusInternalServerError, users.error), None);
      }
      if |users.value| <= 0 {
        return Respond(Reply(StatusNotFound, "no users found"), None);
      }
      if |users.value| != 1 {
        return Respond(Reply(StatusExpectationFailed, "found more than one recepients"), None);
      }
      if users.value[0].userKind != CtsUserKind {
        return Respond(Reply(StatusPreconditionRequired, "user is not cts_user"), None);
      }
      var created := cfg.bot.createChatWithUser(users.value[0]);
      if created.Failure? {
        return Respond(Reply(StatusServiceUnavailable, created.error), None);
      }
      chatId := created.value;
    } else {
      var parsed := Parse(addrPrefix);
      chatId := parsed.id;
      if ToString(chatId) != addrPrefix {
        // The source sends this reply but does not return, so processing goes on
        // with the parser's value; HandlePostMessageAsWritten models that.
        return Respond(Reply(StatusUnprocessableEntity, UnrecognizedText(addrPrefix, mailContact.value, parsed)), None);
      }
    }
    if cfg.checkAllowedSend.Some? {
      var err := cfg.checkAllowedSend.value(ToString(chatId));
      if err.Some? {
        return Respond(Reply(StatusUnavailableForLegalReasons, err.value), None);
      }
    }
    var ndOpts := BuildRequestOptions(message.buttons, req.metadata);
    var ndr := NDRequest(chatId, message.body, ndOpts);
    var buildErr := cfg.bot.newNDRequestError(ndr);
    if buildErr.Some? {
      return Fault(buildErr.value);
    }
    if !requireStatus {
      var d := Dispatch(ndr, Async);
      var err := cfg.bot.sendMessage(d);
      if err.Some? {
        return Respond(Reply(StatusServiceUnavailable, err.value), Some(d));
      }
      return Respond(Reply(StatusAccepted, "OK"), Some(d));
    } else {
      var d := Dispatch(ndr, Sync);
      var err := cfg.bot.sendMessage(d);
      if err.Some? {
        return Respond(Reply(StatusServiceUnavailable, err.value), Some(d));
      }
      return Respond(Reply(StatusCreated, "OK"), Some(d));
    }
  }

  /** `/message` is `apiPostMessageHandlerWithoutStatus` (asynchronous) and
      `/message/with-status` is `apiPostMessageHandlerWithStatus` (synchronous). */
  function RouteMode(route: Route): Mode {
    match route
    case PostMessage => ModeOf(false)
    case PostMessageWithStatus => ModeOf(true)
  }

  /** The middleware chain then the route handler. */
  function Serve(cfg: APIConfig, parseAddress: string -> Option<string>, route: Route, req: Request): (o: Outcome)
    ensures AuthenticateClient(cfg, req.authorization).NotConfigured? ==> o == Fault(NoTokenCheckText)
    ensures AuthenticateClient(cfg, req.authorization).Unauthorized? ==>
      o == Respond(AuthenticateClient(cfg, req.authorization).reply, None)
    ensures AuthenticateClient(cfg, req.authorization).Authenticated? ==>
      o == HandlePostMessage(cfg, parseAddress, req, RouteMode(route))
  {
    match AuthenticateClient(cfg, req.authorization)
    case NotConfigured => Fault(NoTokenCheckText)
    case Unauthorized(reply) => Respond(reply, None)
    case Authenticated(_) => HandlePostMessage(cfg, parseAddress, req, RouteMode(route))
  }

  /** Every dispatch the handler makes went through both mute gates, to the chat
      the address resolved to, with the message body and in the route's mode. */
  lemma DispatchOnlyAfterGates(cfg: APIConfig, parseAddress: string -> Option<string>, req: Request, mode: Mode)
    requires HandlePostMessage(cfg, parseAddress, req, mode).Respond?
    requires HandlePostMessage(cfg, parseAddress, req, mode).dispatched.Some?
    ensures var d := HandlePostMessage(cfg, parseAddress, req, mode).dispatched.value;
      && req.body.Some?
      && parseAddress(req.body.value.to).Some?
      && var address := parseAddress(req.body.value.to).value;
      && Gate(cfg, ToLower(address)).None?
      && ResolveChat(cfg, address, ToLower(address)) == Resolved(d.request.chatId)
      && Gate(cfg, ToString(d.request.chatId)).None?
      && d.mode == mode
      && d.request.body == req.body.value.body
  {
  }

  /** A muted address is refused with 451 before anything else happens: the
      platform client is not consulted and nothing is dispatched. */
  lemma MutedAddressRefused(cfg: APIConfig, parseAddress: string -> Option<string>, req: Request, mode: Mode, other: Bot)
    requires req.body.Some? && parseAddress(req.body.value.to).Some?
    requires Gate(cfg, ToLower(parseAddress(req.body.value.to).value)).Some?
    ensures var o := HandlePostMessage(cfg, parseAddress, req, mode);
      && o == Respond(Reply(StatusUnavailableForLegalReasons, Gate(cfg, ToLower(parseAddress(req.body.value.to).value)).value), None)
      && o == HandlePostMessage(cfg.(bot := other), parseAddress, req, mode)
  {
  }

  /** A group address whose prefix is canonical UUID text is delivered to that chat
      without any platform lookup; one whose prefix is not ends in 422. */
  lemma GroupAddressDelivery(cfg: APIConfig, parseAddress: string -> Option<string>, req: Request, mode: Mode)
    requires req.body.Some? && parseAddress(req.body.value.to).Some?
    requires var addr := ToLower(parseAddress(req.body.value.to).value);
      Gate(cfg, addr).None? && CutSuffix(addr, cfg.groupChatMailSuffix).1
    ensures var addr := ToLower(parseAddress(req.body.value.to).value);
      var prefix := CutSuffix(addr, cfg.groupChatMailSuffix).0;
      var o := HandlePostMessage(cfg, parseAddress, req, mode);
      && (IsCanonical(prefix) ==> o == Deliver(cfg, Parse(prefix).id, req.body.value, req.metadata, mode))
      && (!IsCanonical(prefix) ==> o.Respond? && o.reply.status == StatusUnprocessableEntity && o.dispatched.None?)
  {
    var address := parseAddress(req.body.value.to).value;
    GroupAddressRouting(cfg, address, ToLower(address), cfg.bot);
  }

  /** A user's address that passes the first gate is answered by the user lookup:
      a refusal of the lookup or of the chat creation is the reply, with nothing
      dispatched, and the created chat is where the message is delivered. */
  lemma UserAddressDelivery(cfg: APIConfig, parseAddress: string -> Option<string>, req: Request, mode: Mode)
    requires req.body.Some? && parseAddress(req.body.value.to).Some?
    requires var addr := ToLower(parseAddress(req.body.value.to).value);
      Gate(cfg, addr).None? && !CutSuffix(addr, cfg.groupChatMailSuffix).1
    ensures var address := parseAddress(req.body.value.to).value;
      var r := ResolveChat(cfg, address, ToLower(address));
      var o := HandlePostMessage(cfg, parseAddress, req, mode);
      && (r.Refused? || r.Resolved?)
      && (r.Refused? ==> o == Respond(r.reply, None))
      && (r.Resolved? ==> o == Deliver(cfg, r.chatId, req.body.value, req.metadata, mode))
    ensures var addr := ToLower(parseAddress(req.body.value.to).value);
      var o := HandlePostMessage(cfg, parseAddress, req, mode);
      match cfg.bot.findUsersByMails(addr)
      case Failure(e) => o == Respond(Reply(StatusInternalServerError, e), None)
      case Success(users) =>
        if users == [] then o == Respond(Reply(StatusNotFound, "no users found"), None)
        else if |users| > 1 then o == Respond(Reply(StatusExpectationFailed, "found more than one recepients"), None)
        else if users[0].userKind != CtsUserKind then o == Respond(Reply(StatusPreconditionRequired, "user is not cts_user"), None)
        else match cfg.bot.createChatWithUser(users[0])
             case Failure(e) => o == Respond(Reply(StatusServiceUnavailable, e), None)
             case Success(chatId) => o == Deliver(cfg, chatId, req.body.value, req.metadata, mode)
  {
    var address := parseAddress(req.body.value.to).value;
    UserAddressRouting(cfg, address, ToLower(address));
  }

  /** The middleware answers before the routes: nothing is dispatched for a request
      that is not authenticated, and a dispatch is made in the route's mode. */
  lemma ServeDispatchesOnlyAuthenticated(cfg: APIConfig, parseAddress: string -> Option<string>, route: Route, req: Request)
    requires Serve(cfg, parseAddress, route, req).Respond?
    requires Serve(cfg, parseAddress, route, req).dispatched.Some?
    ensures AuthenticateClient(cfg, req.authorization).Authenticated?
    ensures Serve(cfg, parseAddress, route, req).dispatched.value.mode == (if route == PostMessage then Async else Sync)
  {
    DispatchOnlyAfterGates(cfg, parseAddress, req, RouteMode(route));
  }

  /** A successful send is acknowledged with 202 on `/message` and 201 on
      `/message/with-status`. */
  lemma RouteSuccessStatus(cfg: APIConfig, parseAddress: string -> Option<string>, route: Route, req: Request)
    requires Serve(cfg, parseAddress, route, req).Respond?
    requires Serve(cfg, parseAddress, route, req).dispatched.Some?
    requires cfg.bot.sendMessage(Serve(cfg, parseAddress, route, req).dispatched.value).None?
    ensures Serve(cfg, parseAddress, route, req).reply.status == (if route == PostMessage then StatusAccepted else StatusCreated)
  {
    DispatchOnlyAfterGates(cfg, parseAddress, req, RouteMode(route));
  }

  // ---------------------------------------------------------------------------
  // The handler as written (apiv0.go:131-136)

  /** What the recover middleware answers after `err.Error()` on a nil error. */
  const NilErrorPanic := "runtime error: invalid memory address or nil pointer dereference"

  /** `apiPostMessageHandler` exactly as written: the 422 for an unrecognised group
      chat id is sent without returning, so the request goes on with whatever the
      UUID parser returned, and the later reply replaces the 422. When the parser
      accepted a non-canonical form its error is nil and formatting it panics. */
  function HandlePostMessageAsWritten(cfg: APIConfig, parseAddress: string -> Option<string>, req: Request, mode: Mode): (o: Outcome)
    ensures o.Respond? && o.dispatched.Some? ==>
      req.body.Some? && o.dispatched.value.mode == mode && o.dispatched.value.request.body == req.body.value.body
  {
    match req.body
    case None => Respond(Reply(StatusUnprocessableEntity, "unable to parse json"), None)
    case Some(message) =>
      match parseAddress(message.to)
      case None => Respond(Reply(StatusUnprocessableEntity, "unable to parse mail address"), None)
      case Some(address) =>
        var addr := ToLower(address);
        match Gate(cfg, addr)
        case Some(e) => Respond(Reply(StatusUnavailableForLegalReasons, e), None)
        case None =>
          match ResolveChat(cfg, address, addr)
          case Refused(reply) => Respond(reply, None)
          case Unrecognized(_, parsed) =>
            if parsed.err.None? then Fault(NilErrorPanic)
            else Deliver(cfg, parsed.id, message, req.metadata, mode)
          case Resolved(chatId) => Deliver(cfg, chatId, message, req.metadata, mode)
  }

  /** The two handlers differ only on an unrecognised group chat id, where the code
      as written goes on to deliver to the nil UUID or panics. */
  lemma AsWrittenDiffersOnlyOnUnrecognized(cfg: APIConfig, parseAddress: string -> Option<string>, req: Request, mode: Mode)
    ensures HandlePostMessageAsWritten(cfg, parseAddress, req, mode) != HandlePostMessage(cfg, parseAddress, req, mode) ==>
      && req.body.Some?
      && parseAddress(req.body.value.to).Some?
      && var address := parseAddress(req.body.value.to).value;
      && ResolveChat(cfg, address, ToLower(address)).Unrecognized?
      && var parsed := ResolveChat(cfg, address, ToLower(address)).parsed;
      && HandlePostMessageAsWritten(cfg, parseAddress, req, mode) ==
           (if parsed.err.None? then Fault(NilErrorPanic)
            else Deliver(cfg, Nil, req.body.value, req.metadata, mode))
  {
  }

  const GroupSuffix := "@chat-id.internal"

  lemma GroupSuffixLower()
    ensures IsLower(GroupSuffix)
  {
  }

  lemma LowerConcat(a: string, b: string)
    requires IsLower(a) && IsLower(b)
    ensures IsLower(a + b)
  {
  }

  /** A lower-case group address whose prefix the parser rejects: the handler as
      written goes on to the nil UUID. */
  lemma RejectedPrefixReachesNil(cfg: APIConfig, parseAddress: string -> Option<string>, req: Request, mode: Mode, prefix: string)
    requires cfg.checkAllowedSend.None?
    requires req.body.Some? && parseAddress(req.body.value.to) == Some(prefix + cfg.groupChatMailSuffix)
    requires IsLower(prefix + cfg.groupChatMailSuffix)
    requires Parse(prefix).err.Some?
    ensures HandlePostMessageAsWritten(cfg, parseAddress, req, mode) == Deliver(cfg, Nil, req.body.value, req.metadata, mode)
    ensures HandlePostMessage(cfg, parseAddress, req, mode).Respond?
    ensures HandlePostMessage(cfg, parseAddress, req, mode).reply.status == StatusUnprocessableEntity
    ensures HandlePostMessage(cfg, parseAddress, req, mode).dispatched.None?
  {
    var addr := prefix + cfg.groupChatMailSuffix;
    ToLowerOfLower(addr);
    assert CutSuffix(addr, cfg.groupChatMailSuffix).0 == prefix;
    assert !IsCanonical(prefix) by {
      if IsCanonical(prefix) {
        ToStringParse(prefix);
      }
    }
    GroupAddressRouting(cfg, addr, addr, cfg.bot);
  }

  /** A lower-case group address whose prefix parses but is not canonical text:
      the handler as written formats a nil error and panics. */
  lemma AcceptedPrefixPanics(cfg: APIConfig, parseAddress: string -> Option<string>, req: Request, mode: Mode, prefix: string)
    requires cfg.checkAllowedSend.None?
    requires req.body.Some? && parseAddress(req.body.value.to) == Some(prefix + cfg.groupChatMailSuffix)
    requires IsLower(prefix + cfg.groupChatMailSuffix)
    requires Parse(prefix).err.None? && !IsCanonical(prefix)
    ensures HandlePostMessageAsWritten(cfg, parseAddress, req, mode) == Fault(NilErrorPanic)
    ensures HandlePostMessage(cfg, parseAddress, req, mode).Respond?
    ensures HandlePostMessage(cfg, parseAddress, req, mode).reply.status == StatusUnprocessableEntity
  {
    var addr := prefix + cfg.groupChatMailSuffix;
    ToLowerOfLower(addr);
    assert CutSuffix(addr, cfg.groupChatMailSuffix).0 == prefix;
    GroupAddressRouting(cfg, addr, addr, cfg.bot);
  }

  /** "not-a-uuid@chat-id.internal": the handler as written sends the message to the
      nil UUID and answers 202, where the 422 should have ended the request. */
  lemma NotAUuidReachesNilChat(cfg: APIConfig, parseAddress: string -> Option<string>, req: Request)
    requires cfg.groupChatMailSuffix == GroupSuffix && cfg.checkAllowedSend.None?
    requires req.body.Some? && parseAddress(req.body.value.to) == Some("not-a-uuid" + GroupSuffix)
    requires cfg.bot.newNDRequestError(NDRequest(Nil, req.body.value.body, RequestOptions(req.body.value.buttons, req.metadata))).None?
    requires cfg.bot.sendMessage(Dispatch(NDRequest(Nil, req.body.value.body, RequestOptions(req.body.value.buttons, req.metadata)), Async)).None?
    ensures HandlePostMessageAsWritten(cfg, parseAddress, req, Async) ==
      Respond(Reply(StatusAccepted, "OK"), Some(Dispatch(NDRequest(Nil, req.body.value.body, RequestOptions(req.body.value.buttons, req.metadata)), Async)))
    ensures HandlePostMessage(cfg, parseAddress, req, Async).Respond?
    ensures HandlePostMessage(cfg, parseAddress, req, Async).reply.status == StatusUnprocessableEntity
    ensures HandlePostMessage(cfg, parseAddress, req, Async).dispatched.None?
  {
    var prefix := "not-a-uuid";
    assert IsLower(prefix);
    GroupSuffixLower();
    LowerConcat(prefix, GroupSuffix);
    assert Parse(prefix).err.Some?;
    RejectedPrefixReachesNil(cfg, parseAddress, req, Async, prefix);
  }

  /** The bare 32-digit text of any UUID parses without error but is not
      canonical text, so the handler as written formats a nil error and panics
      where the corrected one answers 422. */
  lemma BareHexPanics(cfg: APIConfig, parseAddress: string -> Option<string>, req: Request, mode: Mode, u: UUID)
    requires cfg.groupChatMailSuffix == GroupSuffix && cfg.checkAllowedSend.None?
    requires req.body.Some? && parseAddress(req.body.value.to) == Some(ToBareString(u) + GroupSuffix)
    ensures HandlePostMessageAsWritten(cfg, parseAddress, req, mode) == Fault(NilErrorPanic)
    ensures HandlePostMessage(cfg, parseAddress, req, mode).Respond?
    ensures HandlePostMessage(cfg, parseAddress, req, mode).reply.status == StatusUnprocessableEntity
  {
    var prefix := ToBareString(u);
    ParseBareString(u);
    GroupSuffixLower();
    LowerConcat(prefix, GroupSuffix);
    AcceptedPrefixPanics(cfg, parseAddress, req, mode, prefix);
  }

  /** A braced UUID, `{` + text + `}`, is a valid local part of an address; the
      parser accepts it without error, but it is not canonical text, so the
      handler as written formats a nil error and panics where the corrected one
      answers 422. */
  lemma BracedUuidPanics(cfg: APIConfig, parseAddress: string -> Option<string>, req: Request, mode: Mode, u: UUID)
    requires cfg.groupChatMailSuffix == GroupSuffix && cfg.checkAllowedSend.None?
    requires req.body.Some? && parseAddress(req.body.value.to) == Some("{" + ToString(u) + "}" + GroupSuffix)
    ensures HandlePostMessageAsWritten(cfg, parseAddress, req, mode) == Fault(NilErrorPanic)
    ensures HandlePostMessage(cfg, parseAddress, req, mode).Respond?
    ensures HandlePostMessage(cfg, parseAddress, req, mode).reply.status == StatusUnprocessableEntity
  {
    var prefix := "{" + ToString(u) + "}";
    ParseBraced(u, '{', '}');
    assert IsLower(ToString(u));
    LowerConcat("{", ToString(u));
    LowerConcat("{" + ToString(u), "}");
    GroupSuffixLower();
    LowerConcat(prefix, GroupSuffix);
    AcceptedPrefixPanics(cfg, parseAddress, req, mode, prefix);
  }

  /** The same address with a multi-byte character in place of the opening brace
      is 39 bytes or more long, so the parser reports a length error: the
      handler as written delivers to the nil UUID, and the corrected one answers
      422. */
  lemma MultibyteBraceReachesNil(cfg: APIConfig, parseAddress: string -> Option<string>, req: Request, mode: Mode,
                                 u: UUID, open: char)
    requires open as int >= 0x80
    requires cfg.groupChatMailSuffix == GroupSuffix && cfg.checkAllowedSend.None?
    requires req.body.Some? && parseAddress(req.body.value.to) == Some([open] + ToString(u) + "}" + GroupSuffix)
    ensures HandlePostMessageAsWritten(cfg, parseAddress, req, mode) == Deliver(cfg, Nil, req.body.value, req.metadata, mode)
    ensures HandlePostMessage(cfg, parseAddress, req, mode).Respond?
    ensures HandlePostMessage(cfg, parseAddress, req, mode).reply.status == StatusUnprocessableEntity
  {
    var prefix := [open] + ToString(u) + "}";
    ParseMultibyteBraced(u, open, '}');
    assert IsLower(ToString(u));
    LowerConcat([open], ToString(u));
    LowerConcat([open] + ToString(u), "}");
    GroupSuffixLower();
    LowerConcat(prefix, GroupSuffix);
    RejectedPrefixReachesNil(cfg, parseAddress, req, mode, prefix);
  }
}

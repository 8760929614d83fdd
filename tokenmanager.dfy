/** `tokenmanager`: the set of bearer tokens the API accepts, read from a YAML
    list of records and reloaded in place. A reload is validated first and
    either leaves the set as it is or replaces it as a whole. */
module TokenManager {
  import opened Wrappers

  /** One record of the token file. */
  datatype TokenRecord = TokenRecord(token: string)

  /** What reading and decoding the token file gave: a read error, a decoding
      error, or the records of the list. */
  datatype Source =
    | Unreadable(reason: string)
    | Malformed(reason: string)
    | Records(records: seq<TokenRecord>)

  datatype LoadError =
    | ReadFailed(reason: string)
    | DecodeFailed(reason: string)
    | EmptyToken(number: nat, file: string)
    | NoTokens(file: string)

  /** The tokens of the records, in order. */
  function TokenList(records: seq<TokenRecord>): (tokens: seq<string>)
    ensures |tokens| == |records|
    ensures forall i :: 0 <= i < |records| ==> tokens[i] == records[i].token
  {
    seq(|records|, i requires 0 <= i < |records| => records[i].token)
  }

  function TokenSet(records: seq<TokenRecord>): set<string> {
    set r | r in records :: r.token
  }

  /** The 1-based position of the first record with an empty token. */
  function FirstEmpty(records: seq<TokenRecord>): (n: Option<nat>)
    ensures n.None? <==> forall i :: 0 <= i < |records| ==> records[i].token != ""
    ensures n.Some? ==>
      && 1 <= n.value <= |records|
      && records[n.value - 1].token == ""
      && forall i :: 0 <= i < n.value - 1 ==> records[i].token != ""
  {
    if records == [] then None
    else if records[0].token == "" then Some(1)
    else
      match FirstEmpty(records[1..])
      case None => None
      case Some(n) => Some(n + 1)
  }

  function Elements(s: seq<string>): set<string> {
    set t | t in s
  }

  /** Each element once. */
  predicate Distinct(s: seq<string>) {
    forall i, j :: 0 <= i < j < |s| ==> s[i] != s[j]
  }

  /** The test for an unchanged set: the same length, and the same elements once
      both are sorted. Sorting both sides and comparing is comparing multisets. */
  predicate SameTokens(newTokens: seq<string>, currentTokens: seq<string>) {
    |newTokens| == |currentTokens| && multiset(newTokens) == multiset(currentTokens)
  }

  /** Every element of a distinct sequence occurs once in its multiset. */
  lemma {:induction false} DistinctMultiset(s: seq<string>)
    requires Distinct(s)
    ensures forall x :: multiset(s)[x] <= 1
    decreases |s|
  {
    if s != [] {
      assert s == [s[0]] + s[1..];
      assert Distinct(s[1..]) by {
        forall i, j | 0 <= i < j < |s[1..]|
          ensures s[1..][i] != s[1..][j]
        {
          assert s[1..][i] == s[i + 1] && s[1..][j] == s[j + 1];
        }
      }
      DistinctMultiset(s[1..]);
      assert s[0] !in s[1..];
    }
  }

  /** When the current tokens are listed without repetition, the test passes
      exactly when the new list has no repetition and holds the same tokens. */
  lemma SameTokensMeaning(newTokens: seq<string>, currentTokens: seq<string>)
    requires Distinct(currentTokens)
    ensures SameTokens(newTokens, currentTokens) ==>
      Distinct(newTokens) && Elements(newTokens) == Elements(currentTokens)
    ensures !Distinct(newTokens) ==> !SameTokens(newTokens, currentTokens)
  {
    DistinctMultiset(currentTokens);
    if !Distinct(newTokens) {
      var i, j :| 0 <= i < j < |newTokens| && newTokens[i] == newTokens[j];
      var t := newTokens[i];
      assert multiset(newTokens)[t] >= 2 by {
        assert newTokens == newTokens[..i] + [t] + newTokens[i + 1..j] + [t] + newTokens[j + 1..];
      }
    }
    if SameTokens(newTokens, currentTokens) {
      forall t ensures t in newTokens <==> t in currentTokens {
        assert t in newTokens <==> t in multiset(newTokens);
        assert t in currentTokens <==> t in multiset(currentTokens);
      }
    }
  }

  class TokenManager {
    const file: string
    var tokens: map<string, TokenRecord>

    /** Every token is filed under itself. */
    ghost predicate Valid()
      reads this
    {
      forall t :: t in tokens ==> tokens[t] == TokenRecord(t)
    }

    /** What `Run` establishes and every reload keeps: a valid, non-empty set. */
    ghost predicate Serving()
      reads this
    {
      Valid() && tokens != map[]
    }

    constructor (file: string)
      ensures this.file == file && tokens == map[]
    {
      this.file := file;
      tokens := map[];
    }

    /** `HasToken`: exact membership in the current set. */
    predicate HasToken(token: string)
      reads this
      ensures HasToken(token) <==> token in tokens
    {
      token in tokens
    }

    /** The validation loop of `reloadTokens`: the tokens in order, or the first
        empty one by its 1-based number. */
    method CollectTokens(records: seq<TokenRecord>) returns (newTokens: seq<string>, err: Option<LoadError>)
      ensures err.None? <==> FirstEmpty(records).None?
      ensures err.Some? ==> err == Some(EmptyToken(FirstEmpty(records).value, file))
      ensures err.None? ==> newTokens == TokenList(records)
    {
      newTokens := [];
      for idx := 0 to |records|
        invariant newTokens == TokenList(records[..idx])
        invariant forall i :: 0 <= i < idx ==> records[i].token != ""
      {
        if records[idx].token == "" {
          return newTokens, Some(EmptyToken(idx + 1, file));
        }
        newTokens := newTokens + [records[idx].token];
      }
      assert records[..|records|] == records;
      return newTokens, None;
    }

    /** The keys of the map, in its iteration order. */
    method CurrentTokens() returns (currentTokens: seq<string>)
      ensures Distinct(currentTokens)
      ensures forall t :: t in currentTokens <==> t in tokens
    {
      currentTokens := [];
      var rest := tokens.Keys;
      while rest != {}
        invariant rest <= tokens.Keys
        invariant Distinct(currentTokens)
        invariant forall t :: t in currentTokens <==> t in tokens && t !in rest
        decreases |rest|
      {
        var t :| t in rest;
        currentTokens := currentTokens + [t];
        rest := rest - {t};
      }
    }

    /** `reloadTokens`: a read or decoding error, an empty token or an empty list
        leaves the set as it was; the same set is left in place; any other list
        replaces the set by its tokens. */
    method ReloadTokens(source: Source) returns (err: Option<LoadError>, swapped: bool)
      requires Valid()
      modifies this
      ensures Valid()
      ensures source.Unreadable? ==> err == Some(ReadFailed(source.reason))
      ensures source.Malformed? ==> err == Some(DecodeFailed(source.reason))
      ensures source.Records? && FirstEmpty(source.records).Some? ==>
        err == Some(EmptyToken(FirstEmpty(source.records).value, file))
      ensures source.Records? && FirstEmpty(source.records).None? && source.records == [] ==>
        err == Some(NoTokens(file))
      ensures source.Records? && FirstEmpty(source.records).None? && source.records != [] ==>
        && err.None?
        && tokens.Keys == TokenSet(source.records)
        && (swapped <==> !(Distinct(TokenList(source.records)) && TokenSet(source.records) == old(tokens.Keys)))
      ensures err.Some? ==> !swapped
      ensures !swapped ==> tokens == old(tokens)
      ensures old(Serving()) ==> Serving()
    {
      if source.Unreadable? {
        return Some(ReadFailed(source.reason)), false;
      }
      if source.Malformed? {
        return Some(DecodeFailed(source.reason)), false;
      }
      var records := source.records;
      var newTokens;
      newTokens, err := CollectTokens(records);
      if err.Some? {
        return err, false;
      }
      if |newTokens| < 1 {
        return Some(NoTokens(file)), false;
      }
      assert TokenSet(records) == Elements(newTokens);

      var currentTokens := CurrentTokens();
      SameTokensMeaning(newTokens, currentTokens);
      if |newTokens| == |currentTokens| && multiset(newTokens) == multiset(currentTokens) {
        assert tokens.Keys == TokenSet(records);
        return None, false;
      }
      if Distinct(newTokens) && TokenSet(records) == tokens.Keys {
        SameSetSameTokens(newTokens, currentTokens);
      }

      ReplaceTokens(records);
      assert records[0].token in tokens;
      return None, true;
    }

    /** The first loop of the swap: delete every key. */
    method ClearTokens()
      modifies this
      ensures tokens == map[]
    {
      var stale := tokens.Keys;
      while stale != {}
        invariant tokens.Keys == stale
        decreases |stale|
      {
        var t :| t in stale;
        tokens := tokens - {t};
        stale := stale - {t};
      }
      assert tokens == map[];
    }

    /** The swap of `reloadTokens`: empty the map, then file every record under its
        token. */
    method ReplaceTokens(records: seq<TokenRecord>)
      modifies this
      ensures Valid() && tokens.Keys == TokenSet(records)
    {
      ClearTokens();
      for i := 0 to |records|
        invariant Valid() && tokens.Keys == TokenSet(records[..i])
      {
        assert TokenSet(records[..i + 1]) == TokenSet(records[..i]) + {records[i].token} by {
          assert records[..i + 1] == records[..i] + [records[i]];
        }
        tokens := tokens[records[i].token := records[i]];
      }
      assert records[..|records|] == records;
    }

    /** `Run`: the first load must succeed; later reloads, run in the background,
        only log their errors. */
    static method Run(file: string, source: Source) returns (tm: TokenManager?, err: Option<LoadError>)
      ensures tm != null <==> err.None?
      ensures err.None? <==> source.Records? && FirstEmpty(source.records).None? && source.records != []
      ensures tm != null ==>
        fresh(tm) && tm.file == file && tm.Serving() && tm.tokens.Keys == TokenSet(source.records)
    {
      tm := new TokenManager(file);
      var swapped;
      err, swapped := tm.ReloadTokens(source);
      if err.Some? {
        return null, err;
      }
      assert tm.tokens.Keys == TokenSet(source.records);
      assert source.records[0].token in tm.tokens;
    }
  }

  /** A new list without repetition that holds exactly the current tokens passes the
      unchanged-set test. */
  lemma SameSetSameTokens(newTokens: seq<string>, currentTokens: seq<string>)
    requires Distinct(newTokens) && Distinct(currentTokens)
    requires Elements(newTokens) == Elements(currentTokens)
    ensures SameTokens(newTokens, currentTokens)
  {
    DistinctMultiset(newTokens);
    DistinctMultiset(currentTokens);
    forall x ensures multiset(newTokens)[x] == multiset(currentTokens)[x] {
      assert (x in newTokens) == (x in Elements(newTokens));
      assert (x in currentTokens) == (x in Elements(currentTokens));
    }
    assert multiset(newTokens) == multiset(currentTokens);
    DistinctLength(newTokens, currentTokens);
  }

  /** Two repetition-free lists of the same elements have the same length. */
  lemma DistinctLength(a: seq<string>, b: seq<string>)
    requires multiset(a) == multiset(b)
    ensures |a| == |b|
  {
    assert |multiset(a)| == |a| && |multiset(b)| == |b|;
  }
}

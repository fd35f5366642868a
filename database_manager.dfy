/**
 * DmDatabaseManager: opens one Xapian database over the shards' embedded
 * databases (lazily, at most once), configures its query parser from the
 * database metadata, cleans up search strings and caches stemmers per
 * language.
 */
module DatabaseManager {
  import opened Wrappers
  import opened Errors
  import opened Strings
  import opened Xapian
  import Queries
  import Shards

  /** The prefixes registered when the database brings none of its own. */
  const StandardPrefixes: seq<(string, string)> := [("title", "S"), ("exact_title", "XEXACTS")]
  const StandardBooleanPrefixes: seq<(string, string)> := [("tag", "K"), ("id", "Q")]

  /**
   * dm_database_manager_register_prefixes on a fresh parser: whether it
   * reports success, and the prefixes and boolean prefixes it leaves
   * registered.
   */
  function RegisterPrefixes(meta: PrefixMetadata): (r: (bool, seq<(string, string)>, seq<(string, string)>))
    ensures r.0 <==> !(meta.PrefixesUnreadable? || meta.PrefixesUnparseable?)
    ensures meta.Prefixes? ==> r.1 == meta.prefixes && r.2 == meta.booleanPrefixes
    ensures !meta.Prefixes? ==> r.1 == StandardPrefixes && r.2 == StandardBooleanPrefixes
  {
    match meta
    case PrefixesUnreadable => (false, StandardPrefixes, StandardBooleanPrefixes)
    case PrefixesUnparseable => (false, StandardPrefixes, StandardBooleanPrefixes)
    case PrefixesEmpty => (true, StandardPrefixes, StandardBooleanPrefixes)
    case Prefixes(p, b) => (true, p, b)
  }

  /** How a stop word is registered: one that ends in a newline loses its trailing whitespace. */
  function StopwordEntry(w: string): string {
    if HasSuffix(w, "\n") then Chomp(w) else w
  }

  /**
   * A word without the newline older databases appended is registered as
   * is; with the newline, it is registered as the word with its trailing
   * whitespace dropped.
   */
  lemma StopwordEntryNewline(w: string)
    ensures !HasSuffix(w, "\n") ==> StopwordEntry(w) == w
    ensures StopwordEntry(w + "\n") == Chomp(w)
    ensures HasSuffix(w, "\n") ==>
      StopwordEntry(w) == [] || !IsAsciiSpace(StopwordEntry(w)[|StopwordEntry(w)| - 1])
  {
    var wn := w + "\n";
    assert wn[|wn| - 1..] == "\n";
    ChompNewline(w);
    ChompIsPrefix(w);
  }

  /**
   * dm_database_manager_register_stopwords on a fresh parser: whether it
   * reports success, and the stopper it installs. Empty metadata succeeds
   * without a stopper.
   */
  function RegisterStopwords(meta: StopwordMetadata): (r: (bool, Option<set<string>>))
    ensures r.0 <==> !(meta.StopwordsUnreadable? || meta.StopwordsUnparseable?)
    ensures r.1.Some? <==> meta.Stopwords?
    ensures meta.Stopwords? ==>
      forall x :: x in r.1.value <==> exists i | 0 <= i < |meta.words| :: x == StopwordEntry(meta.words[i])
  {
    match meta
    case StopwordsUnreadable => (false, None)
    case StopwordsUnparseable => (false, None)
    case StopwordsEmpty => (true, None)
    case Stopwords(ws) =>
      var stop := set i | 0 <= i < |ws| :: StopwordEntry(ws[i]);
      assert forall i | 0 <= i < |ws| :: StopwordEntry(ws[i]) in stop;
      (true, Some(stop))
  }

  /** The query parser dm_database_manager_create_db_internal configures for a new database. */
  function ConfiguredParser(env: Env, db: seq<SubDatabase>): Parser {
    var p := RegisterPrefixes(env.prefixMetadata(db));
    var s := RegisterStopwords(env.stopwordMetadata(db));
    Parser(p.1, p.2, s.1, NoStem)
  }

  /** The sub-databases create_database_from_shards adds: every one whose offset is not -1, in order. */
  function Kept(entries: seq<SubDatabase>): seq<SubDatabase> {
    if entries == [] then []
    else
      var last := entries[|entries| - 1];
      Kept(entries[..|entries| - 1]) + (if last.offset != -1 then [last] else [])
  }

  /** The kept sub-databases are exactly the entries whose offset is not -1. */
  lemma {:induction false} KeptMembers(entries: seq<SubDatabase>)
    ensures forall e :: e in Kept(entries) <==> e in entries && e.offset != -1
  {
    if entries != [] {
      var last := entries[|entries| - 1];
      KeptMembers(entries[..|entries| - 1]);
      assert entries == entries[..|entries| - 1] + [last];
    }
  }

  /**
   * create_database_from_shards, then the error code
   * dm_database_manager_create_db_internal gives any failure: the new
   * database fails, or one kept sub-database does not open.
   */
  function CreateDatabase(env: Env, entries: seq<SubDatabase>): (r: Result<seq<SubDatabase>, Error>)
    ensures r.Failure? ==> r.error == DatabaseError(InvalidPath)
    ensures r.Success? <==> env.newDatabaseOk && forall e | e in entries && e.offset != -1 :: env.opens(e)
    ensures r.Success? ==> r.value == Kept(entries)
  {
    KeptMembers(entries);
    if !env.newDatabaseOk || exists e | e in Kept(entries) :: !env.opens(e) then
      Failure(DatabaseError(InvalidPath))
    else
      Success(Kept(entries))
  }

  lemma KeptPrefix(entries: seq<SubDatabase>, i: nat)
    requires i < |entries|
    ensures Kept(entries[..i + 1]) == Kept(entries[..i]) + (if entries[i].offset != -1 then [entries[i]] else [])
  {
    assert entries[..i + 1][..i] == entries[..i];
  }

  /** Each shard's path and the offset dm_shard_get_db_offset reports for it in the current state. */
  function EntriesOf(shards: seq<Shards.Shard>): (r: seq<SubDatabase>)
    reads set s | s in shards
    ensures |r| == |shards|
    ensures forall j | 0 <= j < |shards| :: r[j] == SubDatabase(shards[j].path, shards[j].EffectiveOffset())
  {
    if shards == [] then []
    else
      EntriesOf(shards[..|shards| - 1])
      + [SubDatabase(shards[|shards| - 1].path, shards[|shards| - 1].EffectiveOffset())]
  }

  /**
   * create_database_from_shards: asks every shard for its offset (which may
   * calculate and cache it), skips the ones at -1 and opens the rest, giving
   * up on the first that does not open.
   */
  method CreateDatabaseFromShards(env: Env, shards: seq<Shards.Shard>) returns (r: Result<seq<SubDatabase>, Error>)
    modifies set s | s in shards
    ensures r == CreateDatabase(env, old(EntriesOf(shards)))
    ensures forall s | s in shards :: s.EffectiveOffset() == old(s.EffectiveOffset())
  {
    ghost var entries := EntriesOf(shards);
    if !env.newDatabaseOk {
      return Failure(DatabaseError(InvalidPath));
    }
    var parts: seq<SubDatabase> := [];
    var i := 0;
    while i < |shards|
      invariant 0 <= i <= |shards|
      invariant forall s | s in shards :: s.EffectiveOffset() == old(s.EffectiveOffset())
      invariant parts == Kept(entries[..i])
      invariant forall e | e in parts :: env.opens(e)
    {
      assert shards[i] in shards;
      var offset := shards[i].GetDbOffset();
      assert entries[i] == SubDatabase(shards[i].path, offset);
      KeptPrefix(entries, i);
      if offset != -1 {
        if !env.opens(SubDatabase(shards[i].path, offset)) {
          CreateDatabaseRejects(env, entries, i);
          return Failure(DatabaseError(InvalidPath));
        }
        parts := parts + [SubDatabase(shards[i].path, offset)];
      }
      i := i + 1;
    }
    assert entries[..i] == entries;
    CreateDatabaseAccepts(env, entries);
    r := Success(parts);
  }

  lemma CreateDatabaseRejects(env: Env, entries: seq<SubDatabase>, i: nat)
    requires i < |entries| && entries[i].offset != -1 && !env.opens(entries[i])
    ensures CreateDatabase(env, entries) == Failure(DatabaseError(InvalidPath))
  {
    assert entries[i] in entries;
    KeptMembers(entries);
  }

  lemma CreateDatabaseAccepts(env: Env, entries: seq<SubDatabase>)
    requires env.newDatabaseOk && forall e | e in Kept(entries) :: env.opens(e)
    ensures CreateDatabase(env, entries) == Success(Kept(entries))
  {
  }

  /** The words of `words` that are not stop words, in order. */
  function Filter(stop: set<string>, words: seq<string>): (r: seq<string>)
    ensures |r| <= |words|
  {
    if words == [] then []
    else
      var last := words[|words| - 1];
      assert words == words[..|words| - 1] + [last];
      Filter(stop, words[..|words| - 1]) + (if last !in stop then [last] else [])
  }

  /** The stop-word-free terms: the terms split on spaces, stop words dropped, rejoined with spaces. */
  function StopFiltered(stop: set<string>, terms: string): string {
    Join(" ", Filter(stop, Split(terms, ' ')))
  }

  /** Every word with its leading and trailing whitespace stripped. */
  function StripAll(words: seq<string>): (r: seq<string>)
    ensures |r| == |words| && forall i | 0 <= i < |r| :: r[i] == Strip(words[i])
  {
    seq(|words|, i requires 0 <= i < |words| => Strip(words[i]))
  }

  /** The spelling-corrected terms: the corrected string split on spaces, each word stripped, rejoined. */
  function CleanCorrection(corrected: string): string {
    Join(" ", StripAll(Split(corrected, ' ')))
  }

  /** The string the query parser is handed: a missing search string parses as "". */
  function TermsOrEmpty(terms: Option<string>): string {
    if terms.Some? then terms.value else ""
  }

  /** The filtered words are exactly the words that are not stop words. */
  lemma {:induction false} FilterMembers(stop: set<string>, words: seq<string>)
    ensures forall w :: w in Filter(stop, words) <==> w in words && w !in stop
    decreases |words|
  {
    if words != [] {
      var init := words[..|words| - 1];
      FilterMembers(stop, init);
      assert words == init + [words[|words| - 1]];
    }
  }

  lemma {:induction false} FilterKeepsAll(stop: set<string>, words: seq<string>)
    requires forall w | w in words :: w !in stop
    ensures Filter(stop, words) == words
    decreases |words|
  {
    if words != [] {
      var init := words[..|words| - 1];
      assert forall w | w in init :: w in words;
      FilterKeepsAll(stop, init);
      assert words == init + [words[|words| - 1]];
    }
  }

  /** Terms that hold no stop word come back from the stop-word fix unchanged. */
  lemma NoStopwordsUnchanged(stop: set<string>, terms: string)
    requires forall w | w in Split(terms, ' ') :: w !in stop
    ensures StopFiltered(stop, terms) == terms
  {
    FilterKeepsAll(stop, Split(terms, ' '));
    JoinSplit(terms, ' ');
  }

  /**
   * Joining words that hold no space and splitting again gives the words
   * back, unless they join to the empty string, which splits into nothing.
   */
  lemma SplitJoined(words: seq<string>)
    requires forall w | w in words :: ' ' !in w
    ensures Join(" ", words) == "" ==> Split(Join(" ", words), ' ') == []
    ensures Join(" ", words) != "" ==> Split(Join(" ", words), ' ') == words
  {
    if Join(" ", words) != "" {
      assert words != [];
      SplitAllJoin(words, ' ');
    }
  }

  /**
   * The stop-word-free terms hold no stop word, so fixing them again
   * changes nothing.
   */
  lemma StopFilteredIdempotent(stop: set<string>, terms: string)
    ensures forall w | w in Split(StopFiltered(stop, terms), ' ') :: w !in stop
    ensures StopFiltered(stop, StopFiltered(stop, terms)) == StopFiltered(stop, terms)
  {
    var f := Filter(stop, Split(terms, ' '));
    FilterMembers(stop, Split(terms, ' '));
    JoinSplit(terms, ' ');
    SplitJoined(f);
    FilterKeepsAll(stop, Split(StopFiltered(stop, terms), ' '));
  }

  /**
   * No word of the cleaned correction starts or ends with whitespace, and
   * cleaning it again changes nothing.
   */
  lemma CleanCorrectionTrimmed(corrected: string)
    ensures forall w | w in Split(CleanCorrection(corrected), ' ') ::
      w == [] || (!IsAsciiSpace(w[0]) && !IsAsciiSpace(w[|w| - 1]))
    ensures CleanCorrection(CleanCorrection(corrected)) == CleanCorrection(corrected)
  {
    var words := Split(corrected, ' ');
    var s := StripAll(words);
    JoinSplit(corrected, ' ');
    forall i | 0 <= i < |s|
      ensures ' ' !in s[i]
      ensures s[i] == [] || (!IsAsciiSpace(s[i][0]) && !IsAsciiSpace(s[i][|s[i]| - 1]))
      ensures Strip(s[i]) == s[i]
    {
      assert words[i] in words;
      StripWithin(words[i], ' ');
      StripTrims(words[i]);
    }
    SplitJoined(s);
    assert StripAll(s) == s;
  }

  /** The stemmer Query applies for a language, whatever the cache holds. */
  function ChosenStem(env: Env, lang: string): Stem {
    if lang == "none" then NoStem
    else if env.stemExists(lang) then LanguageStem(lang)
    else NoStem
  }

  /**
   * What the stemmer cache may hold: "none" maps to the plain stemmer and
   * any other language to its own stemmer, which exists.
   */
  predicate CacheValid(env: Env, stemmers: map<string, Stem>) {
    && "none" in stemmers && stemmers["none"] == NoStem
    && forall l | l in stemmers && l != "none" :: stemmers[l] == LanguageStem(l) && env.stemExists(l)
  }

  /**
   * The stemmer lookup of dm_database_manager_query_internal: a cached
   * stemmer is used; otherwise a new one is created and cached, or, when
   * the language has none, the "none" stemmer is used and nothing is
   * cached. The result is the stemmer and the new cache.
   */
  function PickStem(env: Env, stemmers: map<string, Stem>, lang: string): (r: (Stem, map<string, Stem>))
    requires "none" in stemmers
  {
    if lang in stemmers then (stemmers[lang], stemmers)
    else if env.stemExists(lang) then (LanguageStem(lang), stemmers[lang := LanguageStem(lang)])
    else (stemmers["none"], stemmers)
  }

  /**
   * The cache is transparent: the stemmer picked is the one the language
   * calls for, the cache stays valid, and it only ever gains the language.
   */
  lemma StemCacheTransparent(env: Env, stemmers: map<string, Stem>, lang: string)
    requires CacheValid(env, stemmers)
    ensures PickStem(env, stemmers, lang).0 == ChosenStem(env, lang)
    ensures CacheValid(env, PickStem(env, stemmers, lang).1)
    ensures var c := PickStem(env, stemmers, lang).1;
      c == stemmers || (lang !in stemmers && c == stemmers[lang := LanguageStem(lang)])
  {
  }

  /**
   * The stop-word pass of dm_database_manager_fix_query_internal: splits
   * the terms on spaces, copies the words that are not stop terms into a
   * buffer, and joins the buffer's words with spaces.
   */
  method RemoveStopwords(stop: set<string>, terms: string) returns (fixedTerms: string)
    ensures fixedTerms == StopFiltered(stop, terms)
  {
    var words := Split(terms, ' ');
    var filtered := new string[|words|];
    var k := 0;
    for i := 0 to |words|
      invariant 0 <= k <= i
      invariant filtered[..k] == Filter(stop, words[..i])
    {
      assert words[..i + 1] == words[..i] + [words[i]];
      if words[i] !in stop {
        ghost var kept := filtered[..k];
        filtered[k] := words[i];
        assert filtered[..k + 1] == kept + [words[i]];
        k := k + 1;
      }
    }
    assert words[..|words|] == words;
    fixedTerms := Join(" ", filtered[..k]);
  }

  /**
   * The spelling pass of dm_database_manager_fix_query_internal: splits
   * the corrected string on spaces, strips every word in place and joins
   * the words with spaces.
   */
  method StripCorrection(corrected: string) returns (fixedTerms: string)
    ensures fixedTerms == CleanCorrection(corrected)
  {
    var temp := Split(corrected, ' ');
    var words := new string[|temp|](i requires 0 <= i < |temp| => temp[i]);
    for i := 0 to words.Length
      invariant words[..i] == StripAll(temp[..i])
      invariant words[i..] == temp[i..]
    {
      words[i] := Strip(words[i]);
    }
    assert words[..] == words[..words.Length] && temp[..|temp|] == temp;
    fixedTerms := Join(" ", words[..]);
  }

  /**
   * What dm_database_manager_fix_query returns, given the database
   * ensure_db opens (or its error) and the parser it leaves: the error, the
   * parser's error, or the stop-word-free terms (only with a stopper) and
   * the cleaned spelling correction.
   */
  function FixOutcome(env: Env, db: Result<seq<SubDatabase>, Error>, p: Parser, terms: Option<string>)
    : Result<(Option<string>, Option<string>), Error>
  {
    if db.Failure? then Failure(db.error)
    else
      var parsed := env.parse(p, TermsOrEmpty(terms));
      if parsed.Failure? then Failure(parsed.error)
      else Success((if p.stopper.Some? then Some(StopFiltered(p.stopper.value, TermsOrEmpty(terms))) else None,
                    Some(CleanCorrection(parsed.value))))
  }

  /**
   * What dm_database_manager_query returns, given the same: the error, the
   * NOT_FOUND error of an empty database, or the search run with the
   * parser given the language's stemmer.
   */
  function SearchOutcome(env: Env, db: Result<seq<SubDatabase>, Error>, p: Parser,
                         q: Queries.Query, lang: string): Result<MSet, Error>
  {
    if db.Failure? then Failure(db.error)
    else if env.docCount(db.value) == 0 then Failure(DatabaseError(NotFound))
    else env.search(db.value, p.(stem := ChosenStem(env, lang)), q)
  }

  /**
   * A fixed query is clean: its stop-word-free terms hold no stop word of
   * the parser's stopper, and every word of its correction is trimmed; a
   * failure is the database's or the parser's error.
   */
  lemma FixOutcomeClean(env: Env, db: Result<seq<SubDatabase>, Error>, p: Parser, terms: Option<string>)
    ensures var f := FixOutcome(env, db, p, terms);
      && (f.Failure? <==> db.Failure? || env.parse(p, TermsOrEmpty(terms)).Failure?)
      && (f.Success? ==> (f.value.0.Some? <==> p.stopper.Some?) && f.value.1.Some?)
      && (f.Success? && f.value.0.Some? ==>
            forall w | w in Split(f.value.0.value, ' ') :: w !in p.stopper.value)
      && (f.Success? ==>
            forall w | w in Split(f.value.1.value, ' ') ::
              w == [] || (!IsAsciiSpace(w[0]) && !IsAsciiSpace(w[|w| - 1])))
  {
    if db.Success? && env.parse(p, TermsOrEmpty(terms)).Success? {
      if p.stopper.Some? {
        StopFilteredIdempotent(p.stopper.value, TermsOrEmpty(terms));
      }
      CleanCorrectionTrimmed(env.parse(p, TermsOrEmpty(terms)).value);
    }
  }

  /** A DmDatabaseManager and its private data. */
  class Manager {
    const shards: seq<Shards.Shard>
    /** The Xapian library's answers for these shards. */
    const env: Env
    var database: Option<seq<SubDatabase>>
    var parser: Parser
    var stemmers: map<string, Stem>

    /**
     * The parser starts fresh and is configured once, with the database;
     * only its stemmer changes afterwards. The stemmer cache stays valid.
     */
    ghost predicate Valid()
      reads this
    {
      && CacheValid(env, stemmers)
      && (database.None? ==> parser == FreshParser)
      && (database.Some? ==> parser.(stem := NoStem) == ConfiguredParser(env, database.value))
    }

    /** dm_database_manager_new and dm_database_manager_init: only the "none" stemmer is cached. */
    constructor(shards: seq<Shards.Shard>, env: Env)
      ensures this.shards == shards && this.env == env
      ensures database == None && parser == FreshParser && stemmers == map["none" := NoStem]
      ensures Valid()
    {
      this.shards := shards;
      this.env := env;
      database := None;
      parser := FreshParser;
      stemmers := map["none" := NoStem];
    }

    /** The database ensure_db ends up with, from this state: the open one, or a new one. */
    ghost function Opened(): Result<seq<SubDatabase>, Error>
      reads this, set s | s in shards
    {
      if database.Some? then Success(database.value) else CreateDatabase(env, EntriesOf(shards))
    }

    /** The parser once ensure_db has run: configured for the database it opens, unchanged otherwise. */
    ghost function ParserAfterOpen(): Parser
      reads this, set s | s in shards
    {
      if database.Some? then parser
      else if Opened().Success? then ConfiguredParser(env, Opened().value)
      else parser
    }

    /** Whether the parser will have a stopper once ensure_db has succeeded. */
    ghost predicate StopperAhead()
      reads this, set s | s in shards
    {
      if database.Some? then parser.stopper.Some?
      else Opened().Success? && RegisterStopwords(env.stopwordMetadata(Opened().value)).1.Some?
    }

    /**
     * ensure_db: creates and configures the database the first time it
     * succeeds; a failure leaves the manager without one, to try again.
     */
    method EnsureDb() returns (r: Result<seq<SubDatabase>, Error>)
      requires Valid()
      modifies this, set s | s in shards
      ensures Valid()
      ensures r == old(Opened())
      ensures r.Success? ==> database == Some(r.value)
      ensures r.Failure? ==> database == None && parser == old(parser)
      ensures old(database).Some? ==> parser == old(parser)
      ensures old(database).None? && r.Success? ==> parser == ConfiguredParser(env, r.value)
      ensures stemmers == old(stemmers)
      ensures EntriesOf(shards) == old(EntriesOf(shards))
      ensures Opened() == old(Opened()) && ParserAfterOpen() == old(ParserAfterOpen())
    {
      if database.Some? {
        return Success(database.value);
      }
      ghost var entries := EntriesOf(shards);
      r := CreateDatabaseFromShards(env, shards);
      assert EntriesOf(shards) == entries;
      if r.Success? {
        database := Some(r.value);
        parser := ConfiguredParser(env, r.value);
      }
    }

    /**
     * dm_database_manager_fix_query: with a stopper, the terms without
     * their stop words; and always, on success, the parser's spelling
     * correction of the terms, each word stripped of whitespace. A
     * missing search string is read only by the parser, which takes it
     * as "".
     */
    method FixQuery(terms: Option<string>) returns (r: Result<(Option<string>, Option<string>), Error>)
      requires Valid()
      requires terms.Some? || !StopperAhead()
      modifies this, set s | s in shards
      ensures Valid()
      ensures old(Opened()).Failure? ==> r == Failure(old(Opened()).error) && database == None
      ensures old(Opened()).Success? ==> database == Some(old(Opened()).value)
      ensures parser.stopper.Some? ==> terms.Some?
      ensures old(Opened()).Success? ==>
        var parsed := env.parse(parser, TermsOrEmpty(terms));
        && (parsed.Failure? ==> r == Failure(parsed.error))
        && (parsed.Success? ==>
              && r.Success?
              && r.value.0 == (if parser.stopper.Some? then Some(StopFiltered(parser.stopper.value, terms.value)) else None)
              && r.value.1 == Some(CleanCorrection(parsed.value)))
      ensures stemmers == old(stemmers)
      ensures r == FixOutcome(env, old(Opened()), old(ParserAfterOpen()), terms)
      ensures Opened() == old(Opened()) && ParserAfterOpen() == old(ParserAfterOpen())
    {
      var db := EnsureDb();
      if db.Failure? {
        return Failure(db.error);
      }
      var stopFixed: Option<string> := None;
      if parser.stopper.Some? {
        var fixedTerms := RemoveStopwords(parser.stopper.value, terms.value);
        stopFixed := Some(fixedTerms);
      }
      var parsed := env.parse(parser, TermsOrEmpty(terms));
      if parsed.Failure? {
        return Failure(parsed.error);
      }
      var spellFixed := StripCorrection(parsed.value);
      r := Success((stopFixed, Some(spellFixed)));
    }

    /**
     * dm_database_manager_query: an empty database fails with NOT_FOUND;
     * otherwise the parser gets the stemmer the language calls for,
     * through the cache, and the query runs with it.
     */
    method Query(q: Queries.Query, lang: string) returns (r: Result<MSet, Error>)
      requires Valid()
      modifies this, set s | s in shards
      ensures Valid()
      ensures old(Opened()).Failure? ==> r == Failure(old(Opened()).error) && stemmers == old(stemmers)
      ensures old(Opened()).Success? ==> database == Some(old(Opened()).value)
      ensures old(Opened()).Success? && env.docCount(old(Opened()).value) == 0 ==>
        r == Failure(DatabaseError(NotFound)) && stemmers == old(stemmers)
      ensures old(Opened()).Success? && env.docCount(old(Opened()).value) > 0 ==>
        && parser.stem == ChosenStem(env, lang)
        && r == env.search(database.value, parser, q)
        && stemmers == PickStem(env, old(stemmers), lang).1
      ensures r == SearchOutcome(env, old(Opened()), old(ParserAfterOpen()), q, lang)
    {
      var db := EnsureDb();
      if db.Failure? {
        return Failure(db.error);
      }
      if env.docCount(db.value) == 0 {
        return Failure(DatabaseError(NotFound));
      }
      StemCacheTransparent(env, stemmers, lang);
      var picked := PickStem(env, stemmers, lang);
      stemmers := picked.1;
      parser := parser.(stem := picked.0);
      r := env.search(db.value, parser, q);
    }
  }
}

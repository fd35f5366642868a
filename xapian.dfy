/**
 * The part of Xapian the database manager drives, taken as given: which
 * sub-databases open, their document count and metadata, which languages
 * have a stemmer, what the query parser makes of a string and what a search
 * returns. Query parsing, spelling correction and ranking are not modelled;
 * they are the uninterpreted functions of `Env`.
 */
module Xapian {
  import opened Wrappers
  import opened Errors
  import Queries

  /** A Xapian database inside a shard file: the file's path and the database's offset in it. */
  datatype SubDatabase = SubDatabase(path: string, offset: int)

  /** A XapianStem: the "none" stemmer, or the stemmer of a language. */
  datatype Stem = NoStem | LanguageStem(lang: string)

  /** The "XbPrefixes" metadata as the manager reads it. */
  datatype PrefixMetadata =
    | PrefixesUnreadable
    | PrefixesUnparseable
    | PrefixesEmpty
    | Prefixes(prefixes: seq<(string, string)>, booleanPrefixes: seq<(string, string)>)

  /** The "XbStopwords" metadata as the manager reads it: a JSON array of strings when present. */
  datatype StopwordMetadata =
    | StopwordsUnreadable
    | StopwordsUnparseable
    | StopwordsEmpty
    | Stopwords(words: seq<string>)

  /** A XapianQueryParser's configuration. */
  datatype Parser = Parser(
    prefixes: seq<(string, string)>,
    booleanPrefixes: seq<(string, string)>,
    stopper: Option<set<string>>,
    stem: Stem)

  /** xapian_query_parser_new: nothing registered yet. */
  const FreshParser := Parser([], [], None, NoStem)

  /** One entry of a match set: its document's data (the object id), or a fetch error. */
  datatype MatchItem = Document(data: string) | DocumentError

  /** A XapianMSet: its entries in iterator order, and the matches' upper bound (an unsigned count). */
  datatype MSet = MSet(items: seq<MatchItem>, upperBound: nat)

  /** The library's answers, as functions of what the manager hands it. */
  datatype Env = Env(
    /** Whether xapian_database_new succeeds. */
    newDatabaseOk: bool,
    /** Whether the sub-database opens. */
    opens: SubDatabase -> bool,
    docCount: seq<SubDatabase> -> nat,
    prefixMetadata: seq<SubDatabase> -> PrefixMetadata,
    stopwordMetadata: seq<SubDatabase> -> StopwordMetadata,
    /** Whether xapian_stem_new_for_language succeeds for a language. */
    stemExists: string -> bool,
    /** xapian_query_parser_parse_query_full, then the corrected query string. */
    parse: (Parser, string) -> Result<string, Error>,
    /** Enquire, query construction and get_mset, for a query of the database. */
    search: (seq<SubDatabase>, Parser, Queries.Query) -> Result<MSet, Error>)
}

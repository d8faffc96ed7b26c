/** What each endpoint wrapper of `BetterCallApi` puts on the wire, as
    functions of its arguments: the query parameters, bodies and request
    configurations it assembles (each a chain of guarded assignments in the
    wrapper's own order), and the `k=v` segment lists it joins into a query
    string. The wrappers themselves (module Api) build these step by step and
    are proved to produce exactly these values; the lemmas here state what
    the values mean. */
module Queries {
  import opened Values
  import opened Objects

  /** `maxSize`, the default page size. */
  const MaxSize: int := 10

  // ----- collection fields -----

  /** A collection field: the caller's array joined by `,`. */
  function Collection(xs: seq<string>): Value {
    Str(Join(xs, ','))
  }

  /** A collection field splits back into the caller's array, in the caller's
      order, whenever the array is non-empty and no element holds a comma. */
  lemma CollectionRoundTrip(xs: seq<string>)
    requires |xs| > 0
    requires forall i :: 0 <= i < |xs| ==> ',' !in xs[i]
    ensures Collection(xs).Str? && Split(Collection(xs).s, ',') == xs
  {
    SplitJoin(xs, ',');
  }

  // ----- search (bcd.js:48-67) -----

  /** The parameters `search` assembles before `Object.assign(params, time)`. */
  function SearchParams(text: string, indices: seq<string>, offset: int, networks: seq<string>,
                        languages: seq<string>, group: int): Props
  {
    var p0 := Put(Empty, "q", Str(text));
    var p1 := PutIf(p0, offset > 0, "o", Num(offset));
    var p2 := PutIf(p1, |indices| > 0, "i", Collection(indices));
    var p3 := PutIf(p2, |networks| > 0, "n", Collection(networks));
    var p4 := PutIf(p3, |languages| > 0, "l", Collection(languages));
    PutIf(p4, group >= 0, "g", Num(1))
  }

  /** The parameters `search` sends. */
  function SearchQuery(text: string, indices: seq<string>, offset: int, networks: seq<string>,
                       languages: seq<string>, time: Props, group: int): Props
  {
    AssignAll(SearchParams(text, indices, offset, networks, languages, group), time)
  }

  /** The search parameters before the merge: `q` always; `o` only for a
      positive offset; `i`, `n`, `l` only for non-empty arrays; `g` the
      constant 1 for every `group >= 0` and absent otherwise; in that order. */
  lemma SearchParamsFields(text: string, indices: seq<string>, offset: int, networks: seq<string>,
                           languages: seq<string>, group: int)
    ensures var p := SearchParams(text, indices, offset, networks, languages, group);
      && Get(p, "q") == Some(Str(text))
      && Get(p, "o") == (if offset > 0 then Some(Num(offset)) else None)
      && Get(p, "i") == (if |indices| > 0 then Some(Collection(indices)) else None)
      && Get(p, "n") == (if |networks| > 0 then Some(Collection(networks)) else None)
      && Get(p, "l") == (if |languages| > 0 then Some(Collection(languages)) else None)
      && Get(p, "g") == (if group >= 0 then Some(Num(1)) else None)
      && p.keys == ["q"] + When(offset > 0, "o") + When(|indices| > 0, "i") + When(|networks| > 0, "n")
                   + When(|languages| > 0, "l") + When(group >= 0, "g")
  {
    var p0 := Put(Empty, "q", Str(text));
    var p1 := PutIf(p0, offset > 0, "o", Num(offset));
    var p2 := PutIf(p1, |indices| > 0, "i", Collection(indices));
    var p3 := PutIf(p2, |networks| > 0, "n", Collection(networks));
    var p4 := PutIf(p3, |languages| > 0, "l", Collection(languages));
    assert p0.keys == ["q"] && p0.vals.Keys == {"q"} && Get(p0, "q") == Some(Str(text));
    assert p1.vals.Keys <= {"q", "o"};
    PutIfFresh(p0, offset > 0, "o", Num(offset));
    assert p2.vals.Keys <= {"q", "o", "i"};
    PutIfFresh(p1, |indices| > 0, "i", Collection(indices));
    assert p3.vals.Keys <= {"q", "o", "i", "n"};
    PutIfFresh(p2, |networks| > 0, "n", Collection(networks));
    assert p4.vals.Keys <= {"q", "o", "i", "n", "l"};
    PutIfFresh(p3, |languages| > 0, "l", Collection(languages));
    PutIfFresh(p4, group >= 0, "g", Num(1));
  }

  lemma SearchParamsWellFormed(text: string, indices: seq<string>, offset: int, networks: seq<string>,
                               languages: seq<string>, group: int)
    ensures WellFormed(SearchParams(text, indices, offset, networks, languages, group))
  {
    var p0 := Put(Empty, "q", Str(text));
    var p1 := PutIf(p0, offset > 0, "o", Num(offset));
    var p2 := PutIf(p1, |indices| > 0, "i", Collection(indices));
    var p3 := PutIf(p2, |networks| > 0, "n", Collection(networks));
    var p4 := PutIf(p3, |languages| > 0, "l", Collection(languages));
    PutSpec(Empty, "q", Str(text));
    PutIfWellFormed(p0, offset > 0, "o", Num(offset));
    PutIfWellFormed(p1, |indices| > 0, "i", Collection(indices));
    PutIfWellFormed(p2, |networks| > 0, "n", Collection(networks));
    PutIfWellFormed(p3, |languages| > 0, "l", Collection(languages));
    PutIfWellFormed(p4, group >= 0, "g", Num(1));
  }

  /** What `search` sends: every key of `time` reads as in `time`, overriding
      anything set before; every other key reads as set before the merge, so
      `q` is always sent. */
  lemma SearchQueryFields(text: string, indices: seq<string>, offset: int, networks: seq<string>,
                          languages: seq<string>, time: Props, group: int)
    requires WellFormed(time)
    ensures var q := SearchQuery(text, indices, offset, networks, languages, time, group);
      var p := SearchParams(text, indices, offset, networks, languages, group);
      && WellFormed(q)
      && "q" in q.vals
      && (forall k :: k in time.vals ==> Get(q, k) == Get(time, k))
      && (forall k :: k !in time.vals ==> Get(q, k) == Get(p, k))
  {
    var p := SearchParams(text, indices, offset, networks, languages, group);
    var q := AssignAll(p, time);
    SearchParamsFields(text, indices, offset, networks, languages, group);
    SearchParamsWellFormed(text, indices, offset, networks, languages, group);
    KeysAssignAll(p, time);
    forall k ensures Get(q, k) == if k in time.vals then Get(time, k) else Get(p, k) {
      GetAssignAll(p, time, k);
    }
    assert Get(q, "q").Some?;
  }

  /** The key order of what `search` sends: its own fields in source order,
      then the keys of `time` it does not already have, in `time`'s order. */
  lemma SearchKeyOrder(text: string, indices: seq<string>, offset: int, networks: seq<string>,
                       languages: seq<string>, time: Props, group: int)
    requires WellFormed(time)
    ensures var own := SearchParams(text, indices, offset, networks, languages, group).keys;
      SearchQuery(text, indices, offset, networks, languages, time, group).keys
        == own + NewKeys(own, time.keys)
  {
    SearchParamsWellFormed(text, indices, offset, networks, languages, group);
    KeysAssignAll(SearchParams(text, indices, offset, networks, languages, group), time);
  }

  // ----- getSameContracts, getSimilarContracts (bcd.js:108-136) -----

  function OffsetParams(offset: int): Props {
    PutIf(Empty, offset > 0, "offset", Num(offset))
  }

  /** `offset` only when positive, and nothing else. */
  lemma OffsetParamsFields(offset: int)
    ensures WellFormed(OffsetParams(offset))
    ensures Get(OffsetParams(offset), "offset") == if offset > 0 then Some(Num(offset)) else None
    ensures OffsetParams(offset).keys == When(offset > 0, "offset")
  {
    PutIfWellFormed(Empty, offset > 0, "offset", Num(offset));
  }

  // ----- getContractOperations (bcd.js:138-155) -----

  function ContractOperationsParams(lastId: string, from: int, to: int, statuses: seq<string>,
                                    entrypoints: seq<string>, withStorageDiff: Value): Props
  {
    var p0 := PutIf(Empty, lastId != "", "last_id", Str(lastId));
    var p1 := PutIf(p0, from != 0, "from", Num(from));
    var p2 := PutIf(p1, to != 0, "to", Num(to));
    var p3 := PutIf(p2, |statuses| > 0 && |statuses| < 4, "status", Collection(statuses));
    var p4 := PutIf(p3, |entrypoints| > 0, "entrypoints", Collection(entrypoints));
    Put(p4, "with_storage_diff", withStorageDiff)
  }

  /** The status filter is sent only for one to three statuses (all four means no
      filter); `from` and `to` whenever non-zero, negative values included;
      `last_id` whenever non-empty; `entrypoints` for a non-empty array;
      `with_storage_diff` always, last. */
  lemma ContractOperationsParamsFields(lastId: string, from: int, to: int, statuses: seq<string>,
                                       entrypoints: seq<string>, withStorageDiff: Value)
    ensures var q := ContractOperationsParams(lastId, from, to, statuses, entrypoints, withStorageDiff);
      && Get(q, "status") == (if 0 < |statuses| < 4 then Some(Collection(statuses)) else None)
      && (|statuses| == 4 ==> Get(q, "status") == None)
      && Get(q, "from") == (if from != 0 then Some(Num(from)) else None)
      && Get(q, "to") == (if to != 0 then Some(Num(to)) else None)
      && Get(q, "last_id") == (if lastId != "" then Some(Str(lastId)) else None)
      && Get(q, "entrypoints") == (if |entrypoints| > 0 then Some(Collection(entrypoints)) else None)
      && Get(q, "with_storage_diff") == Some(withStorageDiff)
  {
    var p0 := PutIf(Empty, lastId != "", "last_id", Str(lastId));
    var p1 := PutIf(p0, from != 0, "from", Num(from));
    var p2 := PutIf(p1, to != 0, "to", Num(to));
    var p3 := PutIf(p2, |statuses| > 0 && |statuses| < 4, "status", Collection(statuses));
    var p4 := PutIf(p3, |entrypoints| > 0, "entrypoints", Collection(entrypoints));
    PutIfFresh(Empty, lastId != "", "last_id", Str(lastId));
    assert p0.keys == When(lastId != "", "last_id");
    PutIfFresh(p0, from != 0, "from", Num(from));
    assert p1.keys == When(lastId != "", "last_id") + When(from != 0, "from");
    PutIfFresh(p1, to != 0, "to", Num(to));
    PutIfFresh(p2, |statuses| > 0 && |statuses| < 4, "status", Collection(statuses));
    PutIfFresh(p3, |entrypoints| > 0, "entrypoints", Collection(entrypoints));
    PutIfFresh(p4, true, "with_storage_diff", withStorageDiff);
  }

  /** The operation filters go out in source order, `with_storage_diff` last. */
  lemma ContractOperationsParamsKeys(lastId: string, from: int, to: int, statuses: seq<string>,
                                     entrypoints: seq<string>, withStorageDiff: Value)
    ensures ContractOperationsParams(lastId, from, to, statuses, entrypoints, withStorageDiff).keys
      == When(lastId != "", "last_id") + When(from != 0, "from") + When(to != 0, "to")
         + When(0 < |statuses| < 4, "status") + When(|entrypoints| > 0, "entrypoints")
         + ["with_storage_diff"]
  {
    var p0 := PutIf(Empty, lastId != "", "last_id", Str(lastId));
    var p1 := PutIf(p0, from != 0, "from", Num(from));
    var p2 := PutIf(p1, to != 0, "to", Num(to));
    var p3 := PutIf(p2, |statuses| > 0 && |statuses| < 4, "status", Collection(statuses));
    var p4 := PutIf(p3, |entrypoints| > 0, "entrypoints", Collection(entrypoints));
    PutIfFresh(Empty, lastId != "", "last_id", Str(lastId));
    assert p0.keys == When(lastId != "", "last_id");
    PutIfFresh(p0, from != 0, "from", Num(from));
    assert p1.keys == When(lastId != "", "last_id") + When(from != 0, "from");
    PutIfFresh(p1, to != 0, "to", Num(to));
    PutIfFresh(p2, |statuses| > 0 && |statuses| < 4, "status", Collection(statuses));
    PutIfFresh(p3, |entrypoints| > 0, "entrypoints", Collection(entrypoints));
    PutIfFresh(p4, true, "with_storage_diff", withStorageDiff);
  }

  lemma ContractOperationsParamsWellFormed(lastId: string, from: int, to: int, statuses: seq<string>,
                                           entrypoints: seq<string>, withStorageDiff: Value)
    ensures WellFormed(ContractOperationsParams(lastId, from, to, statuses, entrypoints, withStorageDiff))
  {
    var p0 := PutIf(Empty, lastId != "", "last_id", Str(lastId));
    var p1 := PutIf(p0, from != 0, "from", Num(from));
    var p2 := PutIf(p1, to != 0, "to", Num(to));
    var p3 := PutIf(p2, |statuses| > 0 && |statuses| < 4, "status", Collection(statuses));
    var p4 := PutIf(p3, |entrypoints| > 0, "entrypoints", Collection(entrypoints));
    PutIfWellFormed(Empty, lastId != "", "last_id", Str(lastId));
    PutIfWellFormed(p0, from != 0, "from", Num(from));
    PutIfWellFormed(p1, to != 0, "to", Num(to));
    PutIfWellFormed(p2, |statuses| > 0 && |statuses| < 4, "status", Collection(statuses));
    PutIfWellFormed(p3, |entrypoints| > 0, "entrypoints", Collection(entrypoints));
    PutSpec(p4, "with_storage_diff", withStorageDiff);
  }

  // ----- getAccountTransfers (bcd.js:210-223) -----

  /** The caller's `contracts` array; `None` stands for `null`. */
  function ContractList(contracts: Option<seq<string>>): seq<string> {
    if contracts.Some? then contracts.value else []
  }

  function AccountTransfersParams(tokenId: int, contracts: Option<seq<string>>, size: int,
                                  lastId: string): Props
  {
    var p0 := PutIf(Empty, tokenId > -1, "token_id", Num(tokenId));
    var p1 := PutIf(p0, size > 0, "size", Num(size));
    var p2 := PutIf(p1, StrLess("", lastId), "last_id", Str(lastId));
    PutIf(p2, contracts.Some? && |contracts.value| > 0, "contracts", Collection(ContractList(contracts)))
  }

  /** `token_id` is sent for every id from 0 up (the default -1 means none);
      `size` only when positive; `last_id` (compared as `> ''`) exactly when
      non-empty; `contracts` only for a non-null, non-empty array; in that order. */
  lemma AccountTransfersParamsFields(tokenId: int, contracts: Option<seq<string>>, size: int,
                                     lastId: string)
    ensures var q := AccountTransfersParams(tokenId, contracts, size, lastId);
      var c := contracts.Some? && |contracts.value| > 0;
      && Get(q, "token_id") == (if tokenId >= 0 then Some(Num(tokenId)) else None)
      && (tokenId == 0 ==> Get(q, "token_id") == Some(Num(0)))
      && Get(q, "size") == (if size > 0 then Some(Num(size)) else None)
      && Get(q, "last_id") == (if lastId != "" then Some(Str(lastId)) else None)
      && Get(q, "contracts") == (if c then Some(Collection(contracts.value)) else None)
      && q.keys == When(tokenId >= 0, "token_id") + When(size > 0, "size") + When(lastId != "", "last_id")
                   + When(c, "contracts")
  {
    GreaterThanEmpty(lastId);
    var p0 := PutIf(Empty, tokenId > -1, "token_id", Num(tokenId));
    var p1 := PutIf(p0, size > 0, "size", Num(size));
    var p2 := PutIf(p1, StrLess("", lastId), "last_id", Str(lastId));
    PutIfFresh(Empty, tokenId > -1, "token_id", Num(tokenId));
    assert p0.keys == When(tokenId >= 0, "token_id") && p0.vals.Keys <= {"token_id"};
    PutIfFresh(p0, size > 0, "size", Num(size));
    assert p1.vals.Keys <= {"token_id", "size"};
    PutIfFresh(p1, StrLess("", lastId), "last_id", Str(lastId));
    assert p2.vals.Keys <= {"token_id", "size", "last_id"};
    PutIfFresh(p2, contracts.Some? && |contracts.value| > 0, "contracts", Collection(ContractList(contracts)));
  }

  lemma AccountTransfersParamsWellFormed(tokenId: int, contracts: Option<seq<string>>, size: int,
                                         lastId: string)
    ensures WellFormed(AccountTransfersParams(tokenId, contracts, size, lastId))
  {
    var p0 := PutIf(Empty, tokenId > -1, "token_id", Num(tokenId));
    var p1 := PutIf(p0, size > 0, "size", Num(size));
    var p2 := PutIf(p1, StrLess("", lastId), "last_id", Str(lastId));
    PutIfWellFormed(Empty, tokenId > -1, "token_id", Num(tokenId));
    PutIfWellFormed(p0, size > 0, "size", Num(size));
    PutIfWellFormed(p1, StrLess("", lastId), "last_id", Str(lastId));
    PutIfWellFormed(p2, contracts.Some? && |contracts.value| > 0, "contracts", Collection(ContractList(contracts)));
  }

  // ----- getContractCode (bcd.js:236-243) -----

  function ContractCodeParams(protocol: string, level: int): Props {
    var p0 := PutIf(Empty, protocol != "", "protocol", Str(protocol));
    PutIf(p0, level > 0, "level", Num(level))
  }

  /** `protocol` only when non-empty, `level` only when positive, in that order. */
  lemma ContractCodeParamsFields(protocol: string, level: int)
    ensures var q := ContractCodeParams(protocol, level);
      && WellFormed(q)
      && Get(q, "protocol") == (if protocol != "" then Some(Str(protocol)) else None)
      && Get(q, "level") == (if level > 0 then Some(Num(level)) else None)
      && q.keys == When(protocol != "", "protocol") + When(level > 0, "level")
  {
    var p0 := PutIf(Empty, protocol != "", "protocol", Str(protocol));
    PutIfWellFormed(Empty, protocol != "", "protocol", Str(protocol));
    PutIfWellFormed(p0, level > 0, "level", Num(level));
  }

  // ----- getContractTransfers (bcd.js:290-300) -----

  function ContractTransfersParams(tokenId: int, size: int, offset: int): Props {
    var p0 := PutIf(Empty, tokenId > -1, "token_id", Num(tokenId));
    var p1 := PutIf(p0, size > 0, "size", Num(size));
    PutIf(p1, offset > 0, "offset", Num(offset))
  }

  /** `token_id` from 0 up; `size` and `offset` only when positive; in that order. */
  lemma ContractTransfersParamsFields(tokenId: int, size: int, offset: int)
    ensures var q := ContractTransfersParams(tokenId, size, offset);
      && Get(q, "token_id") == (if tokenId >= 0 then Some(Num(tokenId)) else None)
      && Get(q, "size") == (if size > 0 then Some(Num(size)) else None)
      && Get(q, "offset") == (if offset > 0 then Some(Num(offset)) else None)
      && q.keys == When(tokenId >= 0, "token_id") + When(size > 0, "size") + When(offset > 0, "offset")
  {
    var p0 := PutIf(Empty, tokenId > -1, "token_id", Num(tokenId));
    var p1 := PutIf(p0, size > 0, "size", Num(size));
    PutIfFresh(Empty, tokenId > -1, "token_id", Num(tokenId));
    assert p0.keys == When(tokenId >= 0, "token_id") && p0.vals.Keys <= {"token_id"};
    PutIfFresh(p0, size > 0, "size", Num(size));
    assert p1.vals.Keys <= {"token_id", "size"};
    PutIfFresh(p1, offset > 0, "offset", Num(offset));
  }

  // ----- getTokensByVersion (bcd.js:523-530), listDomains (bcd.js:827-834) -----

  function SizeOffsetParams(offset: int, size: int): Props {
    var p0 := PutIf(Empty, size > 0, "size", Num(size));
    PutIf(p0, offset > 0, "offset", Num(offset))
  }

  /** Pagination that omits non-positive values: `size` before `offset`, each
      only when positive, so with neither the object is `{}`. */
  lemma SizeOffsetParamsFields(offset: int, size: int)
    ensures var q := SizeOffsetParams(offset, size);
      && WellFormed(q)
      && Get(q, "size") == (if size > 0 then Some(Num(size)) else None)
      && Get(q, "offset") == (if offset > 0 then Some(Num(offset)) else None)
      && q.keys == When(size > 0, "size") + When(offset > 0, "offset")
      && (size <= 0 && offset <= 0 ==> q == Empty)
  {
    var p0 := PutIf(Empty, size > 0, "size", Num(size));
    PutIfWellFormed(Empty, size > 0, "size", Num(size));
    PutIfWellFormed(p0, offset > 0, "offset", Num(offset));
  }

  // ----- getAccountTokenBalances, getContractTokens, getProfileEvents (bcd.js:182-184, 266-268, 727-730) -----

  /** `{offset, size}`: both always sent, whatever their values. */
  function PageQuery(offset: int, size: int): Props {
    Put(Put(Empty, "offset", Num(offset)), "size", Num(size))
  }

  /** Both fields are sent, `offset` first, whatever their values. */
  lemma PageQueryFields(offset: int, size: int)
    ensures var q := PageQuery(offset, size);
      && WellFormed(q)
      && Get(q, "offset") == Some(Num(offset))
      && Get(q, "size") == Some(Num(size))
      && q.keys == ["offset", "size"]
  {
    PutSpec(Empty, "offset", Num(offset));
    PutSpec(Put(Empty, "offset", Num(offset)), "size", Num(size));
  }

  // ----- query strings assembled from `k=v` segments -----

  /** `${path}?${params.join('&')}` */
  function WithQuery(path: string, segments: seq<string>): string {
    path + "?" + Join(segments, '&')
  }

  /** The URL always has its `?`; it ends there exactly when there is no
      segment (or one empty segment); otherwise the part after the `?` splits
      at `&` into exactly the segments, in order, provided no segment holds an
      `&` itself. */
  lemma WithQueryShape(path: string, segments: seq<string>)
    ensures |WithQuery(path, segments)| > |path| && WithQuery(path, segments)[|path|] == '?'
    ensures WithQuery(path, segments)[..|path|] == path
    ensures WithQuery(path, segments) == path + "?" <==> |segments| == 0 || segments == [""]
    ensures |segments| > 0 && (forall i :: 0 <= i < |segments| ==> '&' !in segments[i]) ==>
      Split(WithQuery(path, segments)[|path| + 1..], '&') == segments
  {
    var url := WithQuery(path, segments);
    assert url[|path| + 1..] == Join(segments, '&');
    JoinEmpty(segments, '&');
    assert url == path + "?" <==> Join(segments, '&') == "" by {
      if url == path + "?" {
        assert |Join(segments, '&')| == 0;
      }
    }
    if |segments| > 0 && (forall i :: 0 <= i < |segments| ==> '&' !in segments[i]) {
      SplitJoin(segments, '&');
    }
  }

  /** getProfileCompilations, getDeploymentList (bcd.js:924-930, 979-985) */
  function LimitOffsetSegments(limit: int, offset: int): seq<string> {
    When(limit > 0, "limit=" + IntToString(limit))
    + When(offset > 0, "offset=" + IntToString(offset))
  }

  /** Each of `limit` and `offset` is a segment only when positive, `limit`
      first, and each number reads back as the caller's. */
  lemma LimitOffsetSegmentsShape(limit: int, offset: int)
    ensures limit > 0 && offset > 0 ==>
      LimitOffsetSegments(limit, offset) == ["limit=" + NatToString(limit), "offset=" + NatToString(offset)]
    ensures limit > 0 && offset <= 0 ==> LimitOffsetSegments(limit, offset) == ["limit=" + NatToString(limit)]
    ensures limit <= 0 && offset > 0 ==> LimitOffsetSegments(limit, offset) == ["offset=" + NatToString(offset)]
    ensures limit <= 0 && offset <= 0 ==> LimitOffsetSegments(limit, offset) == []
    ensures limit > 0 ==> DecimalValue(NatToString(limit)) == limit
    ensures offset > 0 ==> DecimalValue(NatToString(offset)) == offset
  {
    if limit > 0 { DecimalRoundTrip(limit); }
    if offset > 0 { DecimalRoundTrip(offset); }
  }

  /** With neither `limit` nor `offset` the URL is the bare path and `?`;
      otherwise the query string splits at `&` back into exactly the segments. */
  lemma LimitOffsetQuery(path: string, limit: int, offset: int)
    ensures limit <= 0 && offset <= 0 ==> WithQuery(path, LimitOffsetSegments(limit, offset)) == path + "?"
    ensures limit > 0 || offset > 0 ==>
      Split(WithQuery(path, LimitOffsetSegments(limit, offset))[|path| + 1..], '&')
        == LimitOffsetSegments(limit, offset)
  {
    var segs := LimitOffsetSegments(limit, offset);
    assert forall i :: 0 <= i < |segs| ==> '&' !in segs[i] by {
      var a := "limit=" + IntToString(limit);
      var b := "offset=" + IntToString(offset);
      IntToStringHasNoSeparator(limit, '&');
      IntToStringHasNoSeparator(offset, '&');
      assert '&' !in a && '&' !in b;
      assert segs == When(limit > 0, a) + When(offset > 0, b);
    }
    WithQueryShape(path, segs);
  }

  /** getNetworkStatsSeries (bcd.js:766-775); `None` stands for a null array. */
  function StatsSeriesSegments(index: Value, period: Value, addresses: Option<seq<string>>): (segs: seq<string>)
    ensures var a := addresses.Some? && |addresses.value| != 0;
      && |segs| == (if a then 1 else 0) + (if Truthy(period) then 1 else 0) + (if Truthy(index) then 1 else 0)
      && (a ==> segs[0] == "address=" + Join(addresses.value, ','))
      && (Truthy(period) ==> segs[if a then 1 else 0] == "period=" + ToStr(period))
      && (Truthy(index) ==> segs[|segs| - 1] == "name=" + ToStr(index))
  {
    When(addresses.Some? && |addresses.value| != 0, "address=" + Join(ContractList(addresses), ','))
    + When(Truthy(period), "period=" + ToStr(period))
    + When(Truthy(index), "name=" + ToStr(index))
  }

  /** getTokenVolumeSeries (bcd.js:860-869) */
  function TokenVolumeSegments(period: Value, contract: Value, tokenId: Value, slug: string): (segs: seq<string>)
    ensures |segs| == (if slug != "" then 4 else 3)
    ensures segs[0] == "contract=" + ToStr(contract)
    ensures segs[1] == "period=" + ToStr(period)
    ensures segs[2] == "token_id=" + ToStr(tokenId)
    ensures slug != "" ==> segs[3] == "slug=" + slug
  {
    ["contract=" + ToStr(contract), "period=" + ToStr(period), "token_id=" + ToStr(tokenId)]
    + When(slug != "", "slug=" + slug)
  }

  // ----- getContractStorage, getContractStorageRaw, getContractStorageRich (bcd.js:373-376, 388-391, 402-405) -----

  /** The suffix built by `params = '?'` and, for a truthy level, `params += 'level=' + level`. */
  function StorageSuffix(level: Value): (s: string)
    ensures |s| >= 1 && s[0] == '?'
    ensures !Truthy(level) <==> s == "?"
    ensures level.Num? && level.n > 0 ==> s == "?level=" + NatToString(level.n)
  {
    "?" + (if Truthy(level) then "level=" + ToStr(level) else "")
  }

  // ----- getRandomContract (bcd.js:502) -----

  function RandomContractUrl(network: Value): (url: string)
    ensures Truthy(network) <==> url != "/pick_random"
    ensures Truthy(network) ==> url == "/pick_random?network=" + ToStr(network)
  {
    if Truthy(network) then "/pick_random?network=" + ToStr(network) else "/pick_random"
  }

  // ----- getContractEntrypointTrace (bcd.js:340-350) -----

  /** The request body; `parseInt` is the JavaScript runtime's, passed in. */
  function TraceBody(name: Value, data: Value, source: Value, amount: Value,
                     parseInt: Value -> Value): Props
  {
    var p0 := Put(Put(Empty, "name", name), "data", data);
    var p1 := PutIf(p0, Truthy(source), "source", source);
    PutIf(p1, Truthy(amount), "amount", parseInt(amount))
  }

  function TraceMethod(source: Value): string {
    if Truthy(source) then "run_operation" else "trace"
  }

  /** `name` and `data` are always in the body; `source` and the parsed `amount`
      only when truthy; the request goes to `run_operation` exactly when the body
      carries a `source`, and to `trace` otherwise. */
  lemma TraceBodyFields(name: Value, data: Value, source: Value, amount: Value, parseInt: Value -> Value)
    ensures var b := TraceBody(name, data, source, amount, parseInt);
      && Get(b, "name") == Some(name)
      && Get(b, "data") == Some(data)
      && Get(b, "source") == (if Truthy(source) then Some(source) else None)
      && Get(b, "amount") == (if Truthy(amount) then Some(parseInt(amount)) else None)
      && b.keys == ["name", "data"] + When(Truthy(source), "source") + When(Truthy(amount), "amount")
      && (TraceMethod(source) == "run_operation" <==> "source" in b.vals)
  {
    var p00 := Put(Empty, "name", name);
    var p0 := Put(p00, "data", data);
    var p1 := PutIf(p0, Truthy(source), "source", source);
    assert p0.keys == ["name", "data"] && p0.vals.Keys == {"name", "data"};
    PutIfFresh(p0, Truthy(source), "source", source);
    assert p1.vals.Keys <= {"name", "data", "source"};
    PutIfFresh(p1, Truthy(amount), "amount", parseInt(amount));
  }

  lemma TraceBodyWellFormed(name: Value, data: Value, source: Value, amount: Value, parseInt: Value -> Value)
    ensures WellFormed(TraceBody(name, data, source, amount, parseInt))
  {
    var p00 := Put(Empty, "name", name);
    var p0 := Put(p00, "data", data);
    var p1 := PutIf(p0, Truthy(source), "source", source);
    PutSpec(Empty, "name", name);
    PutSpec(p00, "data", data);
    PutIfWellFormed(p0, Truthy(source), "source", source);
    PutIfWellFormed(p1, Truthy(amount), "amount", parseInt(amount));
  }

  // ----- request configurations and the Authorization header -----

  /** `{ 'Authorization': token }` */
  function BearerHeaders(token: Value): Value {
    Obj(Put(Empty, "Authorization", token))
  }

  /** What a request configuration sends as its Authorization header, if anything. */
  function AuthorizationOf(config: Props): Option<Value> {
    match Get(config, "headers")
    case Some(Obj(h)) => Get(h, "Authorization")
    case _ => None
  }

  /** getContract (bcd.js:91-95): `params.headers` only when the token is truthy. */
  function ContractConfig(token: Value): Props {
    PutIf(Empty, Truthy(token), "headers", BearerHeaders(token))
  }

  /** The profile family: `{ headers: { 'Authorization': getJwt() } }`, whatever the token. */
  function ProfileConfig(token: Value): Props {
    Put(Empty, "headers", BearerHeaders(token))
  }

  /** vote (bcd.js:571-577): the body pairs each address with its network,
      source first. */
  function VoteBody(srcNetwork: Value, srcAddress: Value, destNetwork: Value, destAddress: Value,
                    vote: Value): Props
  {
    Put(Put(Put(Put(Put(Empty, "src", srcAddress), "src_network", srcNetwork),
      "dest", destAddress), "dest_network", destNetwork), "vote", vote)
  }

  /** `src` carries the source address and `src_network` its network, `dest` and
      `dest_network` likewise for the destination, then the vote itself. */
  lemma VoteBodyFields(sn: Value, sa: Value, dn: Value, da: Value, vote: Value)
    ensures var b := VoteBody(sn, sa, dn, da, vote);
      && Get(b, "src") == Some(sa) && Get(b, "src_network") == Some(sn)
      && Get(b, "dest") == Some(da) && Get(b, "dest_network") == Some(dn)
      && Get(b, "vote") == Some(vote)
      && b.keys == ["src", "src_network", "dest", "dest_network", "vote"]
  {
    var b0 := Put(Empty, "src", sa);
    var b1 := Put(b0, "src_network", sn);
    var b2 := Put(b1, "dest", da);
    var b3 := Put(b2, "dest_network", dn);
    assert b0.keys == ["src"] && b0.vals.Keys == {"src"};
    assert b1.keys == ["src", "src_network"] && b1.vals.Keys == {"src", "src_network"};
    assert b2.keys == ["src", "src_network", "dest"] && b2.vals.Keys == {"src", "src_network", "dest"};
    assert b3.keys == ["src", "src_network", "dest", "dest_network"];
    assert b3.vals.Keys == {"src", "src_network", "dest", "dest_network"};
  }

  /** profileMarkAllRead (bcd.js:649): `{ timestamp }` */
  function MarkAllReadBody(timestamp: Value): Props {
    Put(Empty, "timestamp", timestamp)
  }

  /** The body holds the timestamp and nothing else. */
  lemma MarkAllReadBodyFields(timestamp: Value)
    ensures var b := MarkAllReadBody(timestamp);
      && WellFormed(b)
      && Get(b, "timestamp") == Some(timestamp)
      && b.keys == ["timestamp"]
      && forall k :: k != "timestamp" ==> Get(b, k) == None
  {
  }

  /** removeProfileSubscription (bcd.js:703-708): the token header and, as the
      request body, `{ network, address }`. */
  function RemoveSubscriptionConfig(token: Value, network: Value, address: Value): Props {
    Put(ProfileConfig(token), "data", Obj(Put(Put(Empty, "network", network), "address", address)))
  }

  /** getProfileEvents (bcd.js:723-730): the token header and one page of
      `maxSize` events from `offset`. */
  function ProfileEventsConfig(token: Value, offset: int): Props {
    Put(ProfileConfig(token), "params", Obj(PageQuery(offset, MaxSize)))
  }

  /** Every profile request carries the token it read; unsubscribing names the
      subscription in the body; the event page always asks for `maxSize` items. */
  lemma ProfileConfigs(token: Value, network: Value, address: Value, offset: int)
    ensures AuthorizationOf(RemoveSubscriptionConfig(token, network, address)) == Some(token)
    ensures Get(RemoveSubscriptionConfig(token, network, address), "data")
      == Some(Obj(Put(Put(Empty, "network", network), "address", address)))
    ensures AuthorizationOf(ProfileEventsConfig(token, offset)) == Some(token)
    ensures match Get(ProfileEventsConfig(token, offset), "params")
      case Some(Obj(page)) => Get(page, "offset") == Some(Num(offset)) && Get(page, "size") == Some(Num(MaxSize))
      case _ => false
  {
    PageQueryFields(offset, MaxSize);
  }

  /** getContract sends the token exactly when it is truthy, and otherwise an
      empty configuration; the profile family always sends the token it read,
      whatever it is. */
  lemma AuthorizationPolicies(token: Value)
    ensures AuthorizationOf(ContractConfig(token)) == if Truthy(token) then Some(token) else None
    ensures !Truthy(token) ==> ContractConfig(token) == Empty
    ensures AuthorizationOf(ProfileConfig(token)) == Some(token)
  {
  }
}

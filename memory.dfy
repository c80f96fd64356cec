/**
  The long-term memory plugin: the `type|detail|memory` record encoding,
  the decoding of search results, request validation and dispatch in
  `Execute`, and the de-duplicated memory prompt of `HydrateUserMemories`.

  The vector database and the embedding service are parameters: `insert`
  stores one encoded record and may fail with an error text, and `search`
  answers a query string and a result count with the stored strings of the
  `memory` column, or an error text.
*/
module Memory {
  import opened GoStrings
  import opened Wrappers
  import opened Folds

  /** A memory as the model sends it. */
  datatype MemoryItem = MemoryItem(memory: string, typ: string, detail: string)

  /** A decoded search result; the score is never filled in and is left out. */
  datatype MemoryResult = MemoryResult(memory: string, typ: string, detail: string)

  /** The decoded JSON arguments of a call. */
  datatype Request = Request(requestType: string, memories: seq<MemoryItem>, numRelevant: int)

  /** The text returned to the model and the error returned beside it. */
  datatype Reply = Reply(text: string, err: Option<string>)

  type Insert = string -> Option<string>
  type Search = (string, int) -> Result<seq<string>, string>

  const DefaultNumRelevant: int := 5
  const MsgMemoriesRequired: string := "memories are required but was empty"
  const MsgSetFailed: string := "Failed to set a memory"
  const MsgSetOk: string := "Memories set successfully"
  const MsgUnknownRequest: string := "unknown request type check out Example for how to use the memory plug"
  const HydratePrefix: string := "你是一个名叫小丸的AI助手，你拥有长期记忆，以下是一些关于用户的记忆，你可以使用："

  /** The zero value `make` leaves at an index that is not filled. */
  const ZeroResult: MemoryResult := MemoryResult([], [], [])

  // ---------------------------------------------------------------------
  // Encoding and decoding

  /** The record stored for a memory. */
  function Combined(item: MemoryItem): string
  {
    item.typ + "|" + item.detail + "|" + item.memory
  }

  /** The text embedded to query for a memory: the record with a trailing comma. */
  function Query(item: MemoryItem): (r: string)
    ensures r == Combined(item) + ","
  {
    item.typ + "|" + item.detail + "|" + item.memory + ","
  }

  /** A single returned field is split on commas; several fields are records as they are. */
  function SplitRecords(fields: seq<string>): seq<string>
  {
    if |fields| == 1 then Split(fields[0], ",") else fields
  }

  /** A record with at least three `|`-parts decodes to its first three parts, trimmed. */
  function DecodeRecord(record: string): Option<MemoryResult>
  {
    var parts := Split(record, "|");
    if |parts| >= 3 then Some(MemoryResult(TrimSpace(parts[2]), TrimSpace(parts[0]), TrimSpace(parts[1])))
    else None
  }

  /** The results for returned fields: one entry per record, the zero value where a record does not decode. */
  function Decoded(fields: seq<string>): (r: seq<MemoryResult>)
    ensures |r| == |SplitRecords(fields)|
  {
    var records := SplitRecords(fields);
    seq(|records|, k requires 0 <= k < |records| => DecodeOrZero(records[k]))
  }

  function DecodeOrZero(record: string): MemoryResult
  {
    match DecodeRecord(record)
    case Some(m) => m
    case None => ZeroResult
  }

  /** The filling loop of `getMemory` over the returned fields. */
  method DecodeResults(fields: seq<string>) returns (results: seq<MemoryResult>)
    ensures results == Decoded(fields)
  {
    var allMemories := if |fields| == 1 then Split(fields[0], ",") else fields;
    results := seq(|allMemories|, _ => ZeroResult);
    for idx := 0 to |allMemories|
      invariant |results| == |allMemories|
      invariant allMemories == SplitRecords(fields)
      invariant forall k :: 0 <= k < idx ==> results[k] == DecodeOrZero(allMemories[k])
      invariant forall k :: idx <= k < |allMemories| ==> results[k] == ZeroResult
    {
      var parts := Split(allMemories[idx], "|");
      if |parts| >= 3 {
        results := results[idx := MemoryResult(TrimSpace(parts[2]), TrimSpace(parts[0]), TrimSpace(parts[1]))];
      }
      assert results[idx] == DecodeOrZero(allMemories[idx]);
    }
  }

  /** A field without the separator is one piece. */
  lemma SplitAbsent(s: string, sep: char)
    requires sep !in s
    ensures Split(s, [sep]) == [s]
  {
    AbsentCharNotContained(s, [sep], 0);
    SplitSingle(s, [sep]);
  }

  /** Splitting on a character at its first position peels off the text before it. */
  lemma SplitAtFirst(s: string, c: char, i: nat)
    requires i < |s| && s[i] == c && c !in s[..i]
    ensures Split(s, [c]) == [s[..i]] + Split(s[i + 1..], [c])
  {
    assert s[i..i + 1] == [c];
    FirstOccurrence(s, [c], i);
  }

  /** A leading field free of the separator is the first piece. */
  lemma SplitLeading(a: string, rest: string, bar: char)
    requires bar !in a
    ensures Split(a + [bar] + rest, [bar]) == [a] + Split(rest, [bar])
  {
    var s := a + [bar] + rest;
    assert s[..|a|] == a && s[|a|] == bar && s[|a| + 1..] == rest;
    SplitAtFirst(s, bar, |a|);
  }

  /** Three fields free of a separator, joined by it, split back into them. */
  lemma SplitThree(a: string, b: string, c: string, bar: char)
    requires bar !in a && bar !in b && bar !in c
    ensures Split(a + [bar] + b + [bar] + c, [bar]) == [a, b, c]
  {
    assert a + [bar] + b + [bar] + c == a + [bar] + (b + [bar] + c);
    SplitLeading(a, b + [bar] + c, bar);
    SplitLeading(b, c, bar);
    SplitAbsent(c, bar);
  }

  /** The fields of a memory, trimmed, as decoding gives them back. */
  function Trimmed(item: MemoryItem): MemoryResult
  {
    MemoryResult(TrimSpace(item.memory), TrimSpace(item.typ), TrimSpace(item.detail))
  }

  /** A memory without `|` or `,` in its fields. */
  predicate Plain(item: MemoryItem)
  {
    '|' !in item.memory && '|' !in item.typ && '|' !in item.detail
    && ',' !in item.memory && ',' !in item.typ && ',' !in item.detail
  }

  /** Decoding a stored record gives its fields back, trimmed. */
  lemma DecodeCombined(item: MemoryItem)
    requires Plain(item)
    ensures DecodeRecord(Combined(item)) == Some(Trimmed(item))
  {
    SplitThree(item.typ, item.detail, item.memory, '|');
  }

  /** Records of plain memories come back as the trimmed memories, in order, whether the search
      returns them as separate fields or as a single field. */
  lemma {:induction false} DecodeStored(items: seq<MemoryItem>)
    requires forall k :: 0 <= k < |items| ==> Plain(items[k])
    ensures Decoded(seq(|items|, k requires 0 <= k < |items| => Combined(items[k])))
         == seq(|items|, k requires 0 <= k < |items| => Trimmed(items[k]))
  {
    var fields := seq(|items|, k requires 0 <= k < |items| => Combined(items[k]));
    if |items| == 1 {
      var c := Combined(items[0]);
      assert ',' !in c by {
        assert c == items[0].typ + "|" + items[0].detail + "|" + items[0].memory;
      }
      SplitAbsent(c, ',');
    }
    assert SplitRecords(fields) == fields;
    forall k | 0 <= k < |items|
      ensures Decoded(fields)[k] == Trimmed(items[k])
    {
      DecodeCombined(items[k]);
    }
  }

  // ---------------------------------------------------------------------
  // Store and search

  /** `setMemory`: whether the record was stored, and the error if it was not. */
  function SetMemory(item: MemoryItem, insert: Insert): (bool, Option<string>)
  {
    match insert(Combined(item))
    case None => (true, None)
    case Some(e) => (false, Some(e))
  }

  /** `setMemory` reports failure only together with an error. */
  lemma SetMemoryFailsWithError(item: MemoryItem, insert: Insert)
    ensures !SetMemory(item, insert).0 <==> SetMemory(item, insert).1.Some?
    ensures SetMemory(item, insert).1.Some? <==> insert(Combined(item)).Some?
  {
  }

  /** `getMemory`: the decoded results of searching for the query of `item`. */
  function Retrieved(item: MemoryItem, numRelevant: int, search: Search): Result<seq<MemoryResult>, string>
  {
    match search(Query(item), numRelevant)
    case Failure(e) => Failure(e)
    case Success(fields) => Success(Decoded(fields))
  }

  method GetMemory(item: MemoryItem, numRelevant: int, search: Search) returns (r: Result<seq<MemoryResult>, string>)
    ensures r == Retrieved(item, numRelevant, search)
  {
    var combinedMemory := item.typ + "|" + item.detail + "|" + item.memory + ",";
    match search(combinedMemory, numRelevant)
    case Failure(e) =>
      return Failure(e);
    case Success(fields) =>
      var results := DecodeResults(fields);
      return Success(results);
  }

  // ---------------------------------------------------------------------
  // Formatting with %v

  function FormatResult(m: MemoryResult): string
  {
    "{" + m.memory + " " + m.typ + " " + m.detail + " 0}"
  }

  /** `%v` of a result slice: the bracketed results separated by spaces. */
  function FormatResults(results: seq<MemoryResult>): (r: string)
    ensures |r| >= 2 && r[0] == '[' && r[|r| - 1] == ']'
  {
    "[" + Join(seq(|results|, k requires 0 <= k < |results| => FormatResult(results[k])), " ") + "]"
  }

  // ---------------------------------------------------------------------
  // Hydration

  /** The (type, detail) pairs whose memories make up the hydration prompt. */
  const HydrateItems: seq<MemoryItem> := [
    MemoryItem("", "Basic Personal Information", "name"),
    MemoryItem("", "Basic Personal Information", "age"),
    MemoryItem("", "Basic Personal Information", "gender"),
    MemoryItem("", "Basic Personal Information", "location"),
    MemoryItem("", "Preferences", "music_preference"),
    MemoryItem("", "Preferences", "movie_preference"),
    MemoryItem("", "Preferences", "book_preference"),
    MemoryItem("", "Preferences", "food_preference"),
    MemoryItem("", "Professional and Educational Background", "profession"),
    MemoryItem("", "Professional and Educational Background", "education"),
    MemoryItem("", "Professional and Educational Background", "skills"),
    MemoryItem("", "Hobbies and Interests", "hobbies"),
    MemoryItem("", "Hobbies and Interests", "sports"),
    MemoryItem("", "Hobbies and Interests", "travel"),
    MemoryItem("", "Hobbies and Interests", "games"),
    MemoryItem("", "Lifestyle and Habits", "exercise_habit"),
    MemoryItem("", "Lifestyle and Habits", "reading_habit"),
    MemoryItem("", "Lifestyle and Habits", "diet"),
    MemoryItem("", "Lifestyle and Habits", "pets"),
    MemoryItem("", "Tech and Media Consumption", "favorite_apps"),
    MemoryItem("", "Tech and Media Consumption", "device_preference"),
    MemoryItem("", "Tech and Media Consumption", "news_source"),
    MemoryItem("", "Social and Personal Relationships", "family"),
    MemoryItem("", "Social and Personal Relationships", "friends"),
    MemoryItem("", "Social and Personal Relationships", "relationship_status"),
    MemoryItem("", "Past Interactions", "past_questions"),
    MemoryItem("", "Past Interactions", "feedback"),
    MemoryItem("", "Past Interactions", "topics_of_interest"),
    MemoryItem("", "Moods and Feelings", "current_mood"),
    MemoryItem("", "Moods and Feelings", "life_events"),
    MemoryItem("", "Moods and Feelings", "challenges"),
    MemoryItem("", "Custom User Data", "custom_data")
  ]

  /** The memories of one search, without a trailing comma. */
  function Cleaned(results: seq<MemoryResult>): (r: seq<string>)
    ensures |r| == |results|
    ensures forall k :: 0 <= k < |r| ==> !HasSuffix(results[k].memory, ",") ==> r[k] == results[k].memory
    ensures forall k :: 0 <= k < |r| ==> HasSuffix(results[k].memory, ",") ==> r[k] + "," == results[k].memory
  {
    seq(|results|, k requires 0 <= k < |results| => TrimSuffix(results[k].memory, ","))
  }

  /** The cleaned memories found for one hydration item, searching for five. */
  function ItemMemoriesOf(search: Search, m: MemoryItem): Result<seq<string>, string>
  {
    match Retrieved(m, 5, search)
    case Failure(e) => Failure(e)
    case Success(results) => Success(Cleaned(results))
  }

  function ItemMemories(search: Search): MemoryItem -> Result<seq<string>, string>
  {
    (m: MemoryItem) => ItemMemoriesOf(search, m)
  }

  /** The cleaned memories of all hydration items, in order; the first failing search aborts. */
  function AllMemories(items: seq<MemoryItem>, search: Search): Result<seq<string>, string>
  {
    FlatMapAll(ItemMemories(search), items)
  }

  /** Keeps the first occurrence of every string, in order. */
  function Dedup(xs: seq<string>): seq<string>
  {
    if xs == [] then []
    else
      var init := xs[..|xs| - 1];
      if xs[|xs| - 1] in init then Dedup(init) else Dedup(init) + [xs[|xs| - 1]]
  }

  predicate NoDuplicates(xs: seq<string>)
  {
    forall i, j :: 0 <= i < j < |xs| ==> xs[i] != xs[j]
  }

  /** The de-duplicated list has no duplicates and holds exactly the strings of the input. */
  lemma {:induction false} DedupSpec(xs: seq<string>)
    ensures NoDuplicates(Dedup(xs))
    ensures forall x :: x in Dedup(xs) <==> x in xs
  {
    if xs != [] {
      var init := xs[..|xs| - 1];
      DedupSpec(init);
      assert forall x :: x in xs <==> x in init || x == xs[|xs| - 1];
    }
  }

  /** The first occurrence of every string keeps its relative order: the strings of a prefix
      de-duplicate to a prefix. */
  lemma {:induction false} DedupPrefix(xs: seq<string>, n: nat)
    requires n <= |xs|
    ensures HasPrefixSeq(Dedup(xs), Dedup(xs[..n]))
    decreases |xs|
  {
    if n < |xs| {
      var init := xs[..|xs| - 1];
      assert init[..n] == xs[..n];
      DedupPrefix(init, n);
    } else {
      assert xs[..n] == xs;
    }
  }

  predicate HasPrefixSeq(xs: seq<string>, p: seq<string>)
  {
    |p| <= |xs| && xs[..|p|] == p
  }

  /** The prompt for a list of memories. */
  function HydratePrompt(memoryList: seq<string>): string
  {
    HydratePrefix + Join(memoryList, ", ")
  }

  /** `HydrateUserMemories` as a function of the search. */
  function Hydrated(search: Search): Result<string, string>
  {
    match AllMemories(HydrateItems, search)
    case Failure(e) => Failure(e)
    case Success(all) => Success(HydratePrompt(Dedup(all)))
  }

  /** One more string is kept exactly when it was not seen before. */
  lemma DedupSnoc(done: seq<string>, more: seq<string>, i: nat)
    requires i < |more|
    ensures done + more[..i + 1] == (done + more[..i]) + [more[i]]
    ensures Dedup(done + more[..i + 1]) ==
      if more[i] in done + more[..i] then Dedup(done + more[..i]) else Dedup(done + more[..i]) + [more[i]]
  {
    var seen := done + more[..i];
    assert more[..i + 1] == more[..i] + [more[i]];
    assert done + more[..i + 1] == seen + [more[i]];
    assert (seen + [more[i]])[..|seen|] == seen;
  }

  /** The de-duplication loop over the memories of one search. */
  method AddUnique(unique: map<string, bool>, memoryList: seq<string>, ghost done: seq<string>, results: seq<MemoryResult>)
    returns (unique': map<string, bool>, memoryList': seq<string>)
    requires memoryList == Dedup(done)
    requires forall x :: x in unique <==> x in done
    ensures memoryList' == Dedup(done + Cleaned(results))
    ensures forall x :: x in unique' <==> x in done + Cleaned(results)
  {
    unique', memoryList' := unique, memoryList;
    var cleaned := Cleaned(results);
    assert done + cleaned[..0] == done;
    for i := 0 to |results|
      invariant memoryList' == Dedup(done + cleaned[..i])
      invariant forall x :: x in unique' <==> x in done + cleaned[..i]
    {
      var cleanMemory := TrimSuffix(results[i].memory, ",");
      assert cleanMemory == cleaned[i];
      DedupSnoc(done, cleaned, i);
      if cleanMemory !in unique' {
        unique' := unique'[cleanMemory := true];
        memoryList' := memoryList' + [cleanMemory];
      }
    }
    assert cleaned[..|results|] == cleaned;
  }

  /** The search loop of `HydrateUserMemories` over the items to look up. */
  method CollectMemories(items: seq<MemoryItem>, search: Search) returns (r: Result<seq<string>, string>)
    ensures r.Failure? <==> AllMemories(items, search).Failure?
    ensures r.Failure? ==> r == AllMemories(items, search)
    ensures r.Success? ==> r.value == Dedup(AllMemories(items, search).value)
  {
    var unique: map<string, bool> := map[];
    var memoryList: seq<string> := [];
    ghost var done: seq<string> := [];
    for i := 0 to |items|
      invariant AllMemories(items[..i], search) == Success(done)
      invariant memoryList == Dedup(done)
      invariant forall x :: x in unique <==> x in done
    {
      var m := items[i];
      var results := GetMemory(m, 5, search);
      if results.Failure? {
        CollectFails(items, search, i);
        return Failure(results.error);
      }
      unique, memoryList := AddUnique(unique, memoryList, done, results.value);
      CollectStep(items, search, i, done, results.value);
      done := done + Cleaned(results.value);
    }
    assert items[..|items|] == items;
    return Success(memoryList);
  }

  /** A successful search extends the collected memories by its cleaned results. */
  lemma CollectStep(items: seq<MemoryItem>, search: Search, i: nat, done: seq<string>, results: seq<MemoryResult>)
    requires i < |items| && AllMemories(items[..i], search) == Success(done)
    requires Retrieved(items[i], 5, search) == Success(results)
    ensures AllMemories(items[..i + 1], search) == Success(done + Cleaned(results))
  {
    assert ItemMemories(search)(items[i]) == ItemMemoriesOf(search, items[i]) == Success(Cleaned(results));
    FlatMapAllSnoc(ItemMemories(search), items, i);
  }

  /** A failing search after successful ones fails the whole collection with its error. */
  lemma CollectFails(items: seq<MemoryItem>, search: Search, i: nat)
    requires i < |items|
    requires AllMemories(items[..i], search).Success?
    requires Retrieved(items[i], 5, search).Failure?
    ensures AllMemories(items, search) == Failure(Retrieved(items[i], 5, search).error)
  {
    assert ItemMemories(search)(items[i]) == ItemMemoriesOf(search, items[i]);
    FlatMapAllFails(ItemMemories(search), items[..i]);
    assert forall k :: 0 <= k < i ==> items[..i][k] == items[k];
    FirstFailure(items, search, i);
  }

  /** When the first `i` searches succeed and search `i` fails, the whole collection fails with its error. */
  lemma {:induction false} FirstFailure(items: seq<MemoryItem>, search: Search, i: nat)
    requires i < |items|
    requires forall k :: 0 <= k < i ==> ItemMemories(search)(items[k]).Success?
    requires ItemMemories(search)(items[i]).Failure?
    ensures AllMemories(items, search) == Failure(ItemMemories(search)(items[i]).error)
  {
    if i > 0 {
      assert forall k :: 0 <= k < i - 1 ==> items[1..][k] == items[k + 1];
      FirstFailure(items[1..], search, i - 1);
    }
  }

  method HydrateUserMemories(search: Search) returns (r: Result<string, string>)
    ensures r == Hydrated(search)
  {
    var memoryList := CollectMemories(HydrateItems, search);
    if memoryList.Failure? {
      return Failure(memoryList.error);
    }
    return Success(HydratePrompt(memoryList.value));
  }

  // ---------------------------------------------------------------------
  // Execute

  /** The reply to a set request: the first failing store ends it. */
  function SetAll(memories: seq<MemoryItem>, insert: Insert): Reply
  {
    if memories == [] then Reply(MsgSetOk, None)
    else
      var (ok, err) := SetMemory(memories[0], insert);
      if err.Some? then Reply(err.value, err)
      else if !ok then Reply(MsgSetFailed, None)
      else SetAll(memories[1..], insert)
  }

  /** `Execute` over the decoded arguments, or the decoding error. */
  function Executed(decoded: Result<Request, string>, insert: Insert, search: Search): Reply
  {
    match decoded
    case Failure(e) => Reply([], Some(e))
    case Success(args) =>
      var numRelevant := if args.numRelevant == 0 then DefaultNumRelevant else args.numRelevant;
      if args.requestType != "hydrate" && |args.memories| == 0 then Reply(MsgMemoriesRequired, None)
      else if args.requestType == "set" then SetAll(args.memories, insert)
      else if args.requestType == "get" then
        match Retrieved(args.memories[0], numRelevant, search)
        case Failure(e) => Reply(e, Some(e))
        case Success(results) => Reply(FormatResults(results), None)
      else if args.requestType == "hydrate" then
        match Hydrated(search)
        case Failure(e) => Reply(e, Some(e))
        case Success(prompt) => Reply(prompt, None)
      else Reply(MsgUnknownRequest, None)
  }

  method Execute(decoded: Result<Request, string>, insert: Insert, search: Search) returns (reply: Reply)
    ensures reply == Executed(decoded, insert, search)
  {
    if decoded.Failure? {
      return Reply([], Some(decoded.error));
    }
    var args := decoded.value;
    if args.numRelevant == 0 {
      args := args.(numRelevant := DefaultNumRelevant);
    }
    if args.requestType != "hydrate" && |args.memories| == 0 {
      return Reply(MsgMemoriesRequired, None);
    }
    if args.requestType == "set" {
      var i := 0;
      while i < |args.memories|
        invariant 0 <= i <= |args.memories|
        invariant SetAll(args.memories, insert) == SetAll(args.memories[i..], insert)
      {
        var (ok, err) := SetMemory(args.memories[i], insert);
        assert args.memories[i..][1..] == args.memories[i + 1..];
        if err.Some? {
          return Reply(err.value, err);
        }
        if !ok {
          return Reply(MsgSetFailed, None);
        }
        i := i + 1;
      }
      return Reply(MsgSetOk, None);
    } else if args.requestType == "get" {
      var memoryResponse := GetMemory(args.memories[0], args.numRelevant, search);
      if memoryResponse.Failure? {
        return Reply(memoryResponse.error, Some(memoryResponse.error));
      }
      return Reply(FormatResults(memoryResponse.value), None);
    } else if args.requestType == "hydrate" {
      var prompt := HydrateUserMemories(search);
      if prompt.Failure? {
        return Reply(prompt.error, Some(prompt.error));
      }
      return Reply(prompt.value, None);
    }
    return Reply(MsgUnknownRequest, None);
  }

  // ---------------------------------------------------------------------
  // Properties of Execute

  /** Every request except hydration needs memories; without them the fixed message comes back
      with no error, whatever the type, and nothing is stored or searched. */
  lemma MemoriesRequired(args: Request, insert: Insert, search: Search)
    requires args.requestType != "hydrate" && |args.memories| == 0
    ensures Executed(Success(args), insert, search) == Reply(MsgMemoriesRequired, None)
  {
  }

  /** An unknown type with memories gets the fixed usage message and no error. */
  lemma UnknownRequest(args: Request, insert: Insert, search: Search)
    requires args.requestType !in {"set", "get", "hydrate"} && |args.memories| > 0
    ensures Executed(Success(args), insert, search) == Reply(MsgUnknownRequest, None)
  {
  }

  /** A get request searches with its first memory only, for five results when none are asked for. */
  lemma GetUsesFirst(args: Request, insert: Insert, search: Search)
    requires args.requestType == "get" && |args.memories| > 0
    ensures var n := if args.numRelevant == 0 then 5 else args.numRelevant;
      Executed(Success(args), insert, search)
        == match Retrieved(args.memories[0], n, search)
           case Failure(e) => Reply(e, Some(e))
           case Success(results) => Reply(FormatResults(results), None)
  {
  }

  /** A set request stores the memories in order: it succeeds exactly when every store does, and
      otherwise replies with the error of the first store that fails. */
  lemma {:induction false} SetStopsAtFirstError(memories: seq<MemoryItem>, insert: Insert)
    ensures SetAll(memories, insert).err.None? <==>
      forall k :: 0 <= k < |memories| ==> insert(Combined(memories[k])).None?
    ensures SetAll(memories, insert).err.None? ==> SetAll(memories, insert).text == MsgSetOk
    ensures SetAll(memories, insert).err.Some? ==>
      exists k :: 0 <= k < |memories| && insert(Combined(memories[k])).Some?
        && (forall j :: 0 <= j < k ==> insert(Combined(memories[j])).None?)
        && SetAll(memories, insert).err == insert(Combined(memories[k]))
        && SetAll(memories, insert).text == insert(Combined(memories[k])).value
  {
    if memories != [] {
      SetStopsAtFirstError(memories[1..], insert);
      assert forall k :: 1 <= k < |memories| ==> memories[k] == memories[1..][k - 1];
      if SetAll(memories, insert).err.Some? && insert(Combined(memories[0])).None? {
        var k :| 0 <= k < |memories[1..]| && insert(Combined(memories[1..][k])).Some?
          && (forall j :: 0 <= j < k ==> insert(Combined(memories[1..][j])).None?)
          && SetAll(memories[1..], insert).err == insert(Combined(memories[1..][k]))
          && SetAll(memories[1..], insert).text == insert(Combined(memories[1..][k])).value;
        assert insert(Combined(memories[k + 1])).Some?;
      }
    }
  }

  /** Hydration lists every memory found once, in the order first found, after the fixed prefix. */
  lemma HydratedPrompt(search: Search)
    requires AllMemories(HydrateItems, search).Success?
    ensures var all := AllMemories(HydrateItems, search).value;
      && Hydrated(search) == Success(HydratePrefix + Join(Dedup(all), ", "))
      && NoDuplicates(Dedup(all))
      && (forall x :: x in Dedup(all) <==> x in all)
  {
    DedupSpec(AllMemories(HydrateItems, search).value);
  }
}

/**
 * The `Notion` client of `lib.rs`: the database id it holds, the status
 * normalisation of its endpoints, page archiving, and appending block
 * children in chunks of at most one hundred.
 *
 * Each HTTP round trip (serialise, send, read the body, decode) is a
 * function parameter from what the request carries to the decoded reply or
 * the error that `?` propagates; the client itself is sequential.
 */
module Client {
  import opened Wrappers
  import opened Json
  import opened Common
  import QF = QueryFilter
  import opened Blocks
  import opened Pages
  import DS = DatabaseSchema

  /** The most blocks the API accepts in one append request. */
  const ChunkSize: nat := 100

  // ---------------------------------------------------------------- status

  /** A decoded reply without a status field has status 0, which the client reports as 200. */
  function NormalizedStatus(status: uint32): (r: uint32)
    ensures r != 0
    ensures status != 0 ==> r == status
    ensures status == 0 ==> r == 200
  {
    if status == 0 then 200 else status
  }

  /** Normalising twice changes nothing more. */
  lemma NormalizedStatusIdempotent(status: uint32)
    ensures NormalizedStatus(NormalizedStatus(status)) == NormalizedStatus(status)
  {
  }

  // ---------------------------------------------------------------- archiving

  /** The page `archive_a_page` sends: the default page, archived, under the given parent. */
  function ArchivedPage(parentType: ParentType, parentId: string): (p: Page)
    ensures p.archived
    ensures p.parent.typeName == parentType
    ensures forall t: ParentType :: IdFor(p.parent, t) == if t == parentType then Some(parentId) else None
    ensures p.(archived := false, parent := Page.Default.parent) == Page.Default
  {
    Page.Default.(archived := true, parent := ParentFrom(parentType, parentId))
  }

  /** On the wire an archive request is the parent, no properties, and `"archived":true`. */
  lemma ArchivedPageJson(parentType: ParentType, parentId: string)
    ensures PageJson(ArchivedPage(parentType, parentId))
         == JObj([("parent", JObj([("type", JStr(ParentTypeName(parentType))), (ParentTypeName(parentType), JStr(parentId))])),
                  ("properties", JDict(map[])),
                  ("archived", JBool(true))])
  {
    var p := ArchivedPage(parentType, parentId);
    var empty: map<string, PageProperty> := map[];
    assert (map k | k in empty :: PagePropertyJson(empty[k])) == map[];
    assert PropertiesJson(p.properties) == JDict(map[]);
    ParentFromJson(parentType, parentId);
  }

  // ---------------------------------------------------------------- chunking

  function Min(a: int, b: int): int
  {
    if a < b then a else b
  }

  /**
   * The request payloads of the append loop from start index `i` on:
   * `blocks[i..min(i + 100, len)]`, then the same from `i + 100`, while
   * `i` is below the length.
   */
  function ChunksFrom(blocks: seq<Block>, i: nat): (cs: seq<seq<Block>>)
    decreases |blocks| - i
  {
    if i >= |blocks| then [] else [blocks[i..Min(i + ChunkSize, |blocks|)]] + ChunksFrom(blocks, i + ChunkSize)
  }

  /** The payloads of all requests, in the order they are sent. */
  function Chunks(blocks: seq<Block>): seq<seq<Block>>
  {
    ChunksFrom(blocks, 0)
  }

  function Flatten(css: seq<seq<Block>>): seq<Block>
  {
    if css == [] then [] else css[0] + Flatten(css[1..])
  }

  /** The chunks from `i` on cover exactly the blocks from `i` on, in order. */
  lemma {:induction false} ChunksFromFlatten(blocks: seq<Block>, i: nat)
    requires i <= |blocks|
    ensures Flatten(ChunksFrom(blocks, i)) == blocks[i..]
    decreases |blocks| - i
  {
    if i < |blocks| {
      var e := Min(i + ChunkSize, |blocks|);
      if e < |blocks| {
        ChunksFromFlatten(blocks, e);
      }
      assert blocks[i..] == blocks[i..e] + blocks[e..];
    }
  }

  /** Concatenating the request payloads gives back the input. */
  lemma ChunksFlatten(blocks: seq<Block>)
    ensures Flatten(Chunks(blocks)) == blocks
  {
    ChunksFromFlatten(blocks, 0);
  }

  /** Every payload holds between one and one hundred blocks. */
  lemma {:induction false} ChunksFromSizes(blocks: seq<Block>, i: nat)
    ensures forall c :: c in ChunksFrom(blocks, i) ==> 1 <= |c| <= ChunkSize
    decreases |blocks| - i
  {
    if i < |blocks| {
      ChunksFromSizes(blocks, i + ChunkSize);
    }
  }

  /** From start index `i` there are ceil((len - i) / 100) payloads. */
  lemma {:induction false} ChunksFromCount(blocks: seq<Block>, i: nat)
    ensures |ChunksFrom(blocks, i)| == if i >= |blocks| then 0 else (|blocks| - i + ChunkSize - 1) / ChunkSize
    decreases |blocks| - i
  {
    if i < |blocks| {
      ChunksFromCount(blocks, i + ChunkSize);
    }
  }

  /** Payload `j` from start index `i` is the slice starting at `i + 100 * j`. */
  lemma {:induction false} ChunksFromAt(blocks: seq<Block>, i: nat, j: nat)
    requires j < |ChunksFrom(blocks, i)|
    ensures i + ChunkSize * j < |blocks|
    ensures ChunksFrom(blocks, i)[j] == blocks[i + ChunkSize * j..Min(i + ChunkSize * j + ChunkSize, |blocks|)]
    decreases j
  {
    if j > 0 {
      ChunksFromAt(blocks, i + ChunkSize, j - 1);
    }
  }

  /** The loop sends ceil(len / 100) requests, request `j` carrying `blocks[100 * j..min(100 * j + 100, len)]`. */
  lemma ChunksShape(blocks: seq<Block>)
    ensures |Chunks(blocks)| == (|blocks| + ChunkSize - 1) / ChunkSize
    ensures forall j :: 0 <= j < |Chunks(blocks)| ==>
      Chunks(blocks)[j] == blocks[ChunkSize * j..Min(ChunkSize * j + ChunkSize, |blocks|)]
    ensures forall c :: c in Chunks(blocks) ==> 1 <= |c| <= ChunkSize
  {
    ChunksFromCount(blocks, 0);
    forall j | 0 <= j < |Chunks(blocks)|
      ensures Chunks(blocks)[j] == blocks[ChunkSize * j..Min(ChunkSize * j + ChunkSize, |blocks|)]
    {
      ChunksFromAt(blocks, 0, j);
    }
    ChunksFromSizes(blocks, 0);
  }

  // ---------------------------------------------------------------- sending

  /**
   * The outcome of sending the first `n` payloads of `chunks` in order:
   * the first failure, or the concatenated results of all `n` replies.
   */
  function SendFirst(chunks: seq<seq<Block>>, n: nat, send: Json -> Result<BlockResponse>): Result<seq<Block>>
    requires n <= |chunks|
  {
    if n == 0 then Ok([])
    else match SendFirst(chunks, n - 1, send)
      case Err(e) => Err(e)
      case Ok(acc) =>
        match send(BlockBodyJson(BlockBody(chunks[n - 1])))
        case Err(e) => Err(e)
        case Ok(reply) => Ok(acc + reply.results)
  }

  /** When every payload is answered, the results are the replies' results concatenated in request order. */
  lemma {:induction false} SendFirstResults(chunks: seq<seq<Block>>, n: nat, send: Json -> Result<BlockResponse>)
    requires n <= |chunks|
    requires forall j :: 0 <= j < n ==> send(BlockBodyJson(BlockBody(chunks[j]))).Ok?
    ensures SendFirst(chunks, n, send) == Ok(Replies(chunks[..n], send))
  {
    if n > 0 {
      SendFirstResults(chunks, n - 1, send);
      assert chunks[..n] == chunks[..n - 1] + [chunks[n - 1]];
      RepliesAppend(chunks[..n - 1], chunks[n - 1], send);
    }
  }

  /** The results of replies to payloads that all succeed, concatenated in order. */
  function Replies(chunks: seq<seq<Block>>, send: Json -> Result<BlockResponse>): seq<Block>
    requires forall c :: c in chunks ==> send(BlockBodyJson(BlockBody(c))).Ok?
  {
    if chunks == [] then []
    else send(BlockBodyJson(BlockBody(chunks[0]))).value.results + Replies(chunks[1..], send)
  }

  lemma {:induction false} RepliesAppend(chunks: seq<seq<Block>>, c: seq<Block>, send: Json -> Result<BlockResponse>)
    requires forall d :: d in chunks + [c] ==> send(BlockBodyJson(BlockBody(d))).Ok?
    ensures Replies(chunks + [c], send) == Replies(chunks, send) + send(BlockBodyJson(BlockBody(c))).value.results
  {
    if chunks != [] {
      assert (chunks + [c])[1..] == chunks[1..] + [c];
      RepliesAppend(chunks[1..], c, send);
    }
  }

  /**
   * Once payload `j` fails, the outcome is that failure, whatever later
   * replies would have been: nothing after it is sent, and the results
   * gathered so far are dropped.
   */
  lemma {:induction false} SendFirstStopsAtError(chunks: seq<seq<Block>>, j: nat, n: nat, send: Json -> Result<BlockResponse>)
    requires j < n <= |chunks|
    requires SendFirst(chunks, j + 1, send).Err?
    ensures SendFirst(chunks, n, send) == SendFirst(chunks, j + 1, send)
    decreases n
  {
    if n > j + 1 {
      SendFirstStopsAtError(chunks, j, n - 1, send);
    }
  }

  /** Two transports that answer the first `n` payloads alike give the same outcome. */
  lemma {:induction false} SendFirstDependsOnPrefix(chunks: seq<seq<Block>>, n: nat,
                                                    send: Json -> Result<BlockResponse>, other: Json -> Result<BlockResponse>)
    requires n <= |chunks|
    requires forall j :: 0 <= j < n ==>
      send(BlockBodyJson(BlockBody(chunks[j]))) == other(BlockBodyJson(BlockBody(chunks[j])))
    ensures SendFirst(chunks, n, send) == SendFirst(chunks, n, other)
  {
    if n > 0 {
      SendFirstDependsOnPrefix(chunks, n - 1, send, other);
    }
  }

  /** What `append_block_children` returns for the given replies. */
  function AppendOutcome(blocks: seq<Block>, send: Json -> Result<BlockResponse>): Result<BlockResponse>
  {
    match SendFirst(Chunks(blocks), |Chunks(blocks)|, send)
    case Err(e) => Err(e)
    case Ok(results) => Ok(BlockResponse("list", 200, "", "", results))
  }

  /** With no blocks nothing is sent and the reply is an empty list with status 200. */
  lemma AppendNothing(send: Json -> Result<BlockResponse>)
    ensures AppendOutcome([], send) == Ok(BlockResponse("list", 200, "", "", []))
  {
    assert Chunks([]) == [];
  }

  /** A successful append reports status 200 and exactly the concatenated results, whatever each reply's status. */
  lemma AppendSucceeds(blocks: seq<Block>, send: Json -> Result<BlockResponse>)
    requires forall c :: c in Chunks(blocks) ==> send(BlockBodyJson(BlockBody(c))).Ok?
    ensures AppendOutcome(blocks, send) == Ok(BlockResponse("list", 200, "", "", Replies(Chunks(blocks), send)))
  {
    var cs := Chunks(blocks);
    SendFirstResults(cs, |cs|, send);
    assert cs[..|cs|] == cs;
  }

  // ---------------------------------------------------------------- the client

  /** `Notion`: the API key and the database the database endpoints address. */
  class Notion {
    var apiKey: string
    var databaseId: string

    /**
     * `Notion::new`, given the values of `NOTION_API_KEY` and of
     * `NOTION_DATABASE_ID` (absent becomes the empty id).
     */
    constructor (apiKey: string, databaseIdVar: Option<string>)
      ensures this.apiKey == apiKey && this.databaseId == databaseIdVar.UnwrapOr("")
    {
      this.apiKey := apiKey;
      this.databaseId := databaseIdVar.UnwrapOr("");
    }

    /** `Notion::database`: only the database id is replaced. */
    method Database(id: string)
      modifies this
      ensures databaseId == id && apiKey == old(apiKey)
    {
      databaseId := id;
    }

    /** `retrieve_a_database`: the decoded database of this client's id, its status normalised. */
    method RetrieveADatabase(fetch: string -> Result<DS.Database>) returns (r: Result<DS.Database>)
      ensures fetch(databaseId).Err? ==> r == fetch(databaseId)
      ensures fetch(databaseId).Ok? ==>
        r == Ok(fetch(databaseId).value.(status := NormalizedStatus(fetch(databaseId).value.status)))
    {
      var content := fetch(databaseId);
      if content.Err? {
        return Err(content.error);
      }
      var database := content.value;
      if database.status == 0 {
        database := database.(status := 200);
      }
      return Ok(database);
    }

    /** `query_database`: the filter's built body sent to this client's database, the status normalised. */
    method QueryDatabase(filter: QF.QueryFilter, send: (string, string) -> Result<PageResponse>)
      returns (r: Result<PageResponse>)
      ensures var sent := send(databaseId, Render(QF.QueryBody(filter.filter, filter.startCursor)));
        && (sent.Err? ==> r == sent)
        && (sent.Ok? ==> r == Ok(sent.value.(status := NormalizedStatus(sent.value.status))))
    {
      var query := filter.Build();
      var content := send(databaseId, query);
      if content.Err? {
        return Err(content.error);
      }
      var response := content.value;
      if response.status == 0 {
        response := response.(status := 200);
      }
      return Ok(response);
    }

    /** `create_a_page`: the serialised page sent, the decoded page's status normalised. */
    method CreateAPage(page: Page, send: Json -> Result<Page>) returns (r: Result<Page>)
      ensures send(PageJson(page)).Err? ==> r == send(PageJson(page))
      ensures send(PageJson(page)).Ok? ==>
        r == Ok(send(PageJson(page)).value.(status := NormalizedStatus(send(PageJson(page)).value.status)))
    {
      var content := send(PageJson(page));
      if content.Err? {
        return Err(content.error);
      }
      var created := content.value;
      if created.status == 0 {
        created := created.(status := 200);
      }
      return Ok(created);
    }

    /** `update_a_page`: the serialised page sent for `pageId`, the decoded page's status normalised. */
    method UpdateAPage(pageId: string, page: Page, send: (string, Json) -> Result<Page>) returns (r: Result<Page>)
      ensures send(pageId, PageJson(page)).Err? ==> r == send(pageId, PageJson(page))
      ensures send(pageId, PageJson(page)).Ok? ==>
        r == Ok(send(pageId, PageJson(page)).value.(status := NormalizedStatus(send(pageId, PageJson(page)).value.status)))
    {
      var content := send(pageId, PageJson(page));
      if content.Err? {
        return Err(content.error);
      }
      var updated := content.value;
      if updated.status == 0 {
        updated := updated.(status := 200);
      }
      return Ok(updated);
    }

    /**
     * `archive_a_page`: an update of `pageId` with the default page,
     * archived, whose parent has the given type and only the matching id.
     */
    method ArchiveAPage(pageId: string, parentId: string, parentType: ParentType, send: (string, Json) -> Result<Page>)
      returns (r: Result<Page>)
      ensures var sent := send(pageId, PageJson(ArchivedPage(parentType, parentId)));
        && (sent.Err? ==> r == sent)
        && (sent.Ok? ==> r == Ok(sent.value.(status := NormalizedStatus(sent.value.status))))
    {
      var page := Page.Default.(archived := true);
      match parentType {
        case Database =>
          page := page.(parent := page.parent.(typeName := parentType));
          page := page.(parent := page.parent.(databaseId := Some(parentId)));
        case Page =>
          page := page.(parent := page.parent.(typeName := parentType));
          page := page.(parent := page.parent.(pageId := Some(parentId)));
        case Workspace =>
          page := page.(parent := page.parent.(typeName := parentType));
          page := page.(parent := page.parent.(workspaceId := Some(parentId)));
        case Block =>
          page := page.(parent := page.parent.(typeName := parentType));
          page := page.(parent := page.parent.(blockId := Some(parentId)));
      }
      assert page == ArchivedPage(parentType, parentId);
      r := UpdateAPage(pageId, page, send);
    }

    /**
     * `append_block_children`: the blocks sent in slices of at most one
     * hundred, in order; the first failure is returned as is, otherwise a
     * list of all results with status 200.
     */
    method AppendBlockChildren(parentId: string, blocks: seq<Block>, send: (string, Json) -> Result<BlockResponse>)
      returns (r: Result<BlockResponse>)
      ensures r == AppendOutcome(blocks, body => send(parentId, body))
    {
      ghost var chunks := Chunks(blocks);
      ghost var sendTo := body => send(parentId, body);
      ChunksFromCount(blocks, 0);
      var resBlocks: seq<Block> := [];
      var i := 0;
      ghost var n := 0;
      while i < |blocks|
        invariant i == ChunkSize * n && n <= |chunks|
        invariant n < |chunks| <==> i < |blocks|
        invariant SendFirst(chunks, n, sendTo) == Ok(resBlocks)
        decreases |blocks| - i
      {
        var endIndex := Min(i + ChunkSize, |blocks|);
        var blockBody := BlockBody(blocks[i..endIndex]);
        ChunksFromAt(blocks, 0, n);
        assert blockBody.children == chunks[n];
        var content := send(parentId, BlockBodyJson(blockBody));
        if content.Err? {
          SendFirstStopsAtError(chunks, n, |chunks|, sendTo);
          return Err(content.error);
        }
        resBlocks := resBlocks + content.value.results;
        i := i + ChunkSize;
        n := n + 1;
      }
      return Ok(BlockResponse("list", 200, "", "", resBlocks));
    }
  }
}

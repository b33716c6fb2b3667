/** The key store, the response recorder and the middleware around a handler, one request at a time. */
module IdempotencyStore {
  import opened Wrappers
  import opened Idempotency

  /** A request as the middleware sees it. */
  datatype Request = Request(verb: string, path: string, scope: string, key: string, body: Bytes)

  const NUL := '\U{0000}'

  /** What is fed to the digest; the digest itself is taken to be injective and left out. */
  function Preimage(verb: string, path: string, body: Bytes): string {
    verb + [NUL] + path + [NUL] + body
  }

  function HashOf(r: Request): string { Preimage(r.verb, r.path, r.body) }

  lemma SplitAtNul(p: string, b: Bytes, q: string, c: Bytes)
    requires p + [NUL] + b == q + [NUL] + c && |p| < |q|
    ensures q[|p|] == NUL
  {
    assert (p + [NUL] + b)[|p|] == NUL;
    assert (q + [NUL] + c)[|p|] == q[|p|];
  }

  /** Two requests with one verb and one preimage are the same request, unless a path contains the separator. */
  lemma PreimageDecidesRequest(verb: string, p: string, b: Bytes, q: string, c: Bytes)
    requires Preimage(verb, p, b) == Preimage(verb, q, c)
    requires NUL !in p && NUL !in q
    ensures p == q && b == c
  {
    assert Preimage(verb, p, b) == (verb + [NUL]) + (p + [NUL] + b);
    assert Preimage(verb, q, c) == (verb + [NUL]) + (q + [NUL] + c);
    assert p + [NUL] + b == Preimage(verb, p, b)[|verb| + 1..];
    assert q + [NUL] + c == Preimage(verb, q, c)[|verb| + 1..];
    if |p| < |q| {
      SplitAtNul(p, b, q, c);
    } else if |q| < |p| {
      SplitAtNul(q, c, p, b);
    }
    assert p == (p + [NUL] + b)[..|p|];
    assert q == (q + [NUL] + c)[..|q|];
    assert b == (p + [NUL] + b)[|p| + 1..];
    assert c == (q + [NUL] + c)[|q| + 1..];
  }

  /** A request shares its preimage with a different one exactly when its path or its body contains the separator. */
  lemma PreimageIsSharedIff(verb: string, p: string, b: Bytes)
    ensures (exists q, c :: (q, c) != (p, b) && Preimage(verb, q, c) == Preimage(verb, p, b)) <==> NUL in p || NUL in b
  {
    if NUL in b {
      var k :| 0 <= k < |b| && b[k] == NUL;
      assert b == b[..k] + [NUL] + b[k + 1..];
      var q, c := p + [NUL] + b[..k], b[k + 1..];
      assert q + [NUL] + c == p + [NUL] + b;
      assert Preimage(verb, q, c) == Preimage(verb, p, b) && |q| > |p|;
    } else if NUL in p {
      var k :| 0 <= k < |p| && p[k] == NUL;
      assert p == p[..k] + [NUL] + p[k + 1..];
      var q, c := p[..k], p[k + 1..] + [NUL] + b;
      assert q + [NUL] + c == p + [NUL] + b;
      assert Preimage(verb, q, c) == Preimage(verb, p, b) && |q| < |p|;
    } else {
      forall q, c | Preimage(verb, q, c) == Preimage(verb, p, b) ensures (q, c) == (p, b) {
        OnlyOneSplit(verb, p, b, q, c);
      }
    }
  }

  lemma OnlyOneSplit(verb: string, p: string, b: Bytes, q: string, c: Bytes)
    requires NUL !in p && NUL !in b && Preimage(verb, q, c) == Preimage(verb, p, b)
    ensures (q, c) == (p, b)
  {
    assert q + [NUL] + c == Preimage(verb, q, c)[|verb| + 1..];
    assert p + [NUL] + b == Preimage(verb, p, b)[|verb| + 1..];
    assert (p + [NUL] + b)[|q|] == NUL;
    assert |q| == |p|;
    assert q == (q + [NUL] + c)[..|q|] && c == (q + [NUL] + c)[|q| + 1..];
    assert p == (p + [NUL] + b)[..|p|] && b == (p + [NUL] + b)[|p| + 1..];
  }

  // The recorder.

  datatype Op = SetStatus(code: int) | Put(bytes: Bytes)

  /** The first status set, 200 when a body comes first or nothing is written at all. */
  function StatusOf(ops: seq<Op>): int {
    if ops == [] then 200 else match ops[0] case SetStatus(code) => code case Put(_) => 200
  }

  function BodyOf(ops: seq<Op>): Bytes {
    if ops == [] then []
    else match ops[|ops| - 1] case Put(bytes) => BodyOf(ops[..|ops| - 1]) + bytes case _ => BodyOf(ops[..|ops| - 1])
  }

  /** `sent` and `wire` are what the client behind the recorder has received. */
  class Recorder {
    var status: int
    var body: Bytes
    var wroteHeader: bool
    var sent: Option<int>
    var wire: Bytes

    constructor ()
      ensures status == 200 && body == [] && !wroteHeader && sent == None && wire == []
    {
      status := 200;
      body := [];
      wroteHeader := false;
      sent := None;
      wire := [];
    }

    method WriteHeader(code: int)
      modifies this
      ensures wroteHeader && body == old(body) && wire == old(wire)
      ensures if old(wroteHeader) then status == old(status) && sent == old(sent)
              else status == code && sent == Some(code)
    {
      if wroteHeader {
        return;
      }
      status := code;
      wroteHeader := true;
      sent := Some(code);
    }

    method Write(bytes: Bytes)
      modifies this
      ensures wroteHeader && body == old(body) + bytes && wire == old(wire) + bytes
      ensures if old(wroteHeader) then status == old(status) && sent == old(sent)
              else status == 200 && sent == Some(200)
    {
      if !wroteHeader {
        WriteHeader(200);
      }
      body := body + bytes;
      wire := wire + bytes;
    }

    /** A handler is the sequence of writes it performs. What is recorded is what the client received. */
    method Serve(ops: seq<Op>)
      requires status == 200 && body == [] && !wroteHeader && sent == None && wire == []
      modifies this
      ensures status == StatusOf(ops) && body == BodyOf(ops)
      ensures wire == body && sent == (if ops == [] then None else Some(status))
    {
      var i := 0;
      while i < |ops|
        invariant i <= |ops| && body == wire == BodyOf(ops[..i])
        invariant wroteHeader == (i > 0) && status == StatusOf(ops[..i])
        invariant sent == if i == 0 then None else Some(status)
      {
        assert ops[..i + 1][..i] == ops[..i];
        match ops[i] {
          case SetStatus(code) => WriteHeader(code);
          case Put(bytes) => Write(bytes);
        }
        assert i > 0 ==> ops[..i + 1][0] == ops[..i][0];
        i := i + 1;
      }
      assert ops[..i] == ops;
    }
  }

  // The store.

  type Rows = map<(string, string), Record>

  function RecordOf(rows: Rows, scope: string, key: string): Option<Record> {
    if (scope, key) in rows then Some(rows[(scope, key)]) else None
  }

  class Store {
    var rows: Rows

    constructor ()
      ensures rows == map[]
    {
      rows := map[];
    }

    /** None: the key is now the caller's. */
    method Claim(scope: string, key: string, hash: string) returns (r: Option<Reply>)
      modifies this
      ensures r == if (scope, key) in old(rows) then Some(Answer(RecordOf(old(rows), scope, key), hash)) else None
      ensures rows == if r.None? then old(rows)[(scope, key) := Record(hash, InProgress)] else old(rows)
    {
      if (scope, key) !in rows {
        rows := rows[(scope, key) := Record(hash, InProgress)];
        return None;
      }
      var existing := rows[(scope, key)];
      if existing.hash != hash {
        return Some(KeyReused);
      }
      if existing.status.InProgress? {
        return Some(InFlight);
      }
      return Some(Replay(existing.status.code, existing.status.body));
    }

    method Complete(scope: string, key: string, code: int, body: Bytes)
      modifies this
      ensures rows == if (scope, key) in old(rows)
                      then old(rows)[(scope, key) := old(rows)[(scope, key)].(status := Completed(code, body))]
                      else old(rows)
    {
      if (scope, key) in rows {
        rows := rows[(scope, key) := rows[(scope, key)].(status := Completed(code, body))];
      }
    }

    method Release(scope: string, key: string)
      modifies this
      ensures rows == if (scope, key) in old(rows) && old(rows)[(scope, key)].status.InProgress?
                      then old(rows) - {(scope, key)} else old(rows)
    {
      if (scope, key) in rows && rows[(scope, key)].status.InProgress? {
        rows := rows - {(scope, key)};
      }
    }

    /** Only posts are guarded, and only with a key and a body that can be read. `ops` is what the handler would write
        for this request. */
    method Handle(r: Request, ops: seq<Op>, readable: bool, db: Database) returns (reply: Result<Reply, int>)
      modifies this
      ensures (reply, rows) == Handled(old(rows), r, ops, readable, db)
    {
      if r.verb != "POST" {
        return Ok(Own(StatusOf(ops), BodyOf(ops)));
      }
      if r.key == "" || !readable {
        return Err(400);
      }
      if !db.claims {
        if db.claimedAnyway && (r.scope, r.key) !in rows {
          rows := rows[(r.scope, r.key) := Record(HashOf(r), InProgress)];
        }
        return Err(500);
      }
      var existing := Claim(r.scope, r.key, HashOf(r));
      if existing.Some? {
        return Ok(existing.value);
      }
      var rec := new Recorder();
      rec.Serve(ops);
      Settle(r, rec.status, rec.body, db.stores);
      return Ok(Own(rec.status, rec.body));
    }

    /** Release after a server error, complete otherwise; what the statement answers is ignored. */
    method Settle(r: Request, code: int, body: Bytes, stores: bool)
      requires (r.scope, r.key) in rows && rows[(r.scope, r.key)] == Record(HashOf(r), InProgress)
      modifies this
      ensures rows == if !stores then old(rows)
                      else if code >= 500 then old(rows) - {(r.scope, r.key)}
                      else old(rows)[(r.scope, r.key) := Record(HashOf(r), Completed(code, body))]
    {
      if stores {
        if code >= 500 {
          Release(r.scope, r.key);
        } else {
          Complete(r.scope, r.key, code, body);
        }
      }
    }
  }

  /** What becomes of the statements a request leads to: the claim, which may take effect although it reports an error,
      and the one that stores the outcome. */
  datatype Database = Database(claims: bool, claimedAnyway: bool, stores: bool)

  const FAULTLESS := Database(true, false, true)

  /** The reply to a request, and the table afterwards. */
  function Handled(rows: Rows, r: Request, ops: seq<Op>, readable: bool, db: Database): (Result<Reply, int>, Rows) {
    var key := (r.scope, r.key);
    var claimed := rows[key := Record(HashOf(r), InProgress)];
    if r.verb != "POST" then (Ok(Own(StatusOf(ops), BodyOf(ops))), rows)
    else if r.key == "" || !readable then (Err(400), rows)
    else if !db.claims then (Err(500), if db.claimedAnyway && key !in rows then claimed else rows)
    else if key in rows then (Ok(Answer(RecordOf(rows, r.scope, r.key), HashOf(r))), rows)
    else
      (Ok(Own(StatusOf(ops), BodyOf(ops))),
       if !db.stores then claimed
       else if StatusOf(ops) >= 500 then claimed - {key}
       else claimed[key := Record(HashOf(r), Completed(StatusOf(ops), BodyOf(ops)))])
  }

  /** What is decided before the handler runs: other verbs pass untouched, a request without a key or a readable body is
      the caller's fault, a failed claim the server's, and only that can leave a record behind. */
  lemma HandledBeforehand(rows: Rows, r: Request, ops: seq<Op>, readable: bool, db: Database)
    ensures var (reply, after) := Handled(rows, r, ops, readable, db);
            && (r.verb != "POST" ==> reply == Ok(Own(StatusOf(ops), BodyOf(ops))) && after == rows)
            && (reply == Err(400) <==> r.verb == "POST" && (r.key == "" || !readable))
            && (reply == Err(500) <==> r.verb == "POST" && r.key != "" && readable && !db.claims)
            && (reply.Err? && after != rows ==>
                  reply == Err(500) && db.claimedAnyway && (r.scope, r.key) !in rows &&
                  after == rows[(r.scope, r.key) := Record(HashOf(r), InProgress)])
  {
  }

  /** The same request again gets the first answer byte for byte and changes nothing, unless that answer was a server
      error, in which case it runs afresh, or was not stored, in which case it is told that the first is in flight;
      another request under the same key is refused, or runs after a server error. */
  lemma SecondCall(rows: Rows, r: Request, other: Request, ops: seq<Op>, later: seq<Op>, stores: bool)
    requires r.verb == "POST" && r.key != "" && (r.scope, r.key) !in rows
    requires other.verb == "POST" && other.scope == r.scope && other.key == r.key
    requires NUL !in r.path && NUL !in other.path
    ensures var (first, after) := Handled(rows, r, ops, true, Database(true, false, stores));
            var (second, final) := Handled(after, other, later, true, FAULTLESS);
            && first == Ok(Own(StatusOf(ops), BodyOf(ops)))
            && if stores && StatusOf(ops) >= 500 then
                 after == rows && (second, final) == Handled(rows, other, later, true, FAULTLESS)
               else
                 && final == after
                 && second == Ok(if other != r then KeyReused
                                 else if stores then Replay(StatusOf(ops), BodyOf(ops)) else InFlight)
  {
    var key := (r.scope, r.key);
    assert rows[key := Record(HashOf(r), InProgress)] - {key} == rows;
    if HashOf(other) == HashOf(r) {
      PreimageDecidesRequest("POST", r.path, r.body, other.path, other.body);
    }
  }
}

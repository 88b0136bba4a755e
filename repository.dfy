/**
 * The generic repository over an abstract GORM handle.
 *
 * A `*gorm.DB` is modelled by the clauses a query has recorded so far, in
 * order, and every repository call yields the statement it hands to the store
 * (which handle, which clauses, which terminal action) together with the value
 * it returns. What the store answers is an input (`Outcome`): the model decides
 * nothing about SQL, only how the repository composes a query and classifies
 * the store's answer.
 */
module Repository {
  import opened Wrappers
  import Errors

  /** A store handle (`*gorm.DB`): a plain connection or a transaction. Only its identity matters. */
  datatype Handle = Handle(id: nat)

  /** A value of Go type `any`: an identifier or a positional argument. */
  datatype Value = Value(repr: string)

  /** An `options.Option` modifier (ordering, limiting, locking, ...). Its effect is the store's. */
  datatype Modifier = Modifier(name: string)

  /** One recorded builder call on a query. */
  datatype Clause =
    | Preload(relation: string)
    | Opt(modifier: Modifier)
    | Where(condition: string, args: seq<Value>)
    | Offset(offset: int)
    | Limit(limit: int)
    | Model

  /** `QueryOptions`; a nil `*QueryOptions` is `None` where it is taken. */
  datatype QueryOptions = QueryOptions(
    condition: string,
    args: seq<Value>,
    opts: seq<Modifier>,
    preloads: seq<string>)

  /** The terminal call that executes a query. */
  datatype Action<T> =
    | First(id: Option<Value>)
    | Find
    | CountRows
    | Create(entity: T)
    | Save(entity: T)
    | Delete(id: Option<Value>)
    | Transaction(tx: Handle)

  /** What a repository call hands to the store. */
  datatype Statement<T> = Statement(handle: Handle, clauses: seq<Clause>, action: Action<T>)

  /** An error the store reports: GORM's not-found sentinel or any other failure. */
  datatype StoreError = ErrRecordNotFound | StoreFailure(description: string)

  /** The store's answer to a statement. */
  datatype Outcome<V> = Done(value: V) | Failed(error: StoreError)

  /**
   * An error returned by `Get`: a store error passed through unchanged, the
   * "query parameter empty" domain error, or the "record does not exist"
   * domain error wrapping the store's sentinel.
   */
  datatype Error = Store(error: StoreError) | QueryParamEmpty | RecordNotExist(cause: StoreError)

  /** What `Get` returns, with the statement it issued (`None`: the store is not touched). */
  datatype GetResult<T> = GetResult(issued: Option<Statement<T>>, entity: Option<T>, err: Option<Error>)

  /** What a forwarding call (Create, Update, Delete, Transaction) issues and returns. */
  datatype Exec<T> = Exec(issued: Statement<T>, err: Option<StoreError>)

  /** The numeric code a domain error carries; a store error carries none. */
  function ErrorCode(e: Error): (c: Option<int>)
    ensures e.Store? <==> c.None?
  {
    match e
    case Store(_) => None
    case QueryParamEmpty => Some(Errors.Code(Errors.ErrQueryParamEmpty))
    case RecordNotExist(_) => Some(Errors.Code(Errors.ErrRecordNotExist))
  }

  /** `errors.Unwrap` on a `Get` error: only the not-found domain error has a cause. */
  function Unwrap(e: Error): (c: Option<StoreError>)
    ensures c.Some? <==> e.RecordNotExist?
  {
    match e
    case RecordNotExist(cause) => Some(cause)
    case _ => None
  }

  // ---------------------------------------------------------------------------
  // Query option composition
  // ---------------------------------------------------------------------------

  /** One `Preload` clause per relation name, in list order. */
  function PreloadClauses(names: seq<string>): seq<Clause>
  {
    seq(|names|, i requires 0 <= i < |names| => Preload(names[i]))
  }

  /** What `options.Apply` records: one `Opt` clause per modifier, in order. */
  function ModifierClauses(ms: seq<Modifier>): seq<Clause>
  {
    seq(|ms|, i requires 0 <= i < |ms| => Opt(ms[i]))
  }

  /** The single `Where` clause, present only when the condition is non-empty. */
  function ConditionClauses(o: QueryOptions): seq<Clause>
  {
    if o.condition != "" then [Where(o.condition, o.args)] else []
  }

  /** The clauses `applyQueryOptions` appends to a query. */
  function OptionClauses(opts: Option<QueryOptions>): seq<Clause>
  {
    match opts
    case None => []
    case Some(o) => PreloadClauses(o.preloads) + ModifierClauses(o.opts) + ConditionClauses(o)
  }

  /** The stage of the fixed composition order a clause belongs to. */
  function Stage(c: Clause): nat
  {
    match c
    case Preload(_) => 0
    case Opt(_) => 1
    case Where(_, _) => 2
    case _ => 3
  }

  /** `applyQueryOptions`: returns the query extended by the option clauses. */
  method ApplyQueryOptions(query: seq<Clause>, opts: Option<QueryOptions>) returns (q: seq<Clause>)
    ensures opts.None? ==> q == query
    ensures q == query + OptionClauses(opts)
  {
    if opts.None? {
      return query;
    }
    var o := opts.value;
    q := query;
    for i := 0 to |o.preloads|
      invariant q == query + PreloadClauses(o.preloads[..i])
    {
      assert PreloadClauses(o.preloads[..i + 1]) == PreloadClauses(o.preloads[..i]) + [Preload(o.preloads[i])];
      q := q + [Preload(o.preloads[i])];
    }
    assert o.preloads[..|o.preloads|] == o.preloads;
    if |o.opts| > 0 {
      q := q + ModifierClauses(o.opts);
    }
    if o.condition != "" {
      q := q + [Where(o.condition, o.args)];
    }
  }

  /**
   * The layout of the appended clauses: every preload in list order, then
   * every modifier in order, then one `Where` exactly when the condition is
   * non-empty, and nothing else.
   */
  lemma OptionClausesLayout(o: QueryOptions)
    ensures var c := OptionClauses(Some(o));
      && |c| == |o.preloads| + |o.opts| + (if o.condition != "" then 1 else 0)
      && (forall i :: 0 <= i < |o.preloads| ==> c[i] == Preload(o.preloads[i]))
      && (forall j :: 0 <= j < |o.opts| ==> c[|o.preloads| + j] == Opt(o.opts[j]))
      && (o.condition != "" ==> c[|o.preloads| + |o.opts|] == Where(o.condition, o.args))
  {
  }

  /**
   * The composition order is fixed: no clause of a later stage precedes one
   * of an earlier stage, at most one `Where` is added, and it is added exactly
   * when the condition is non-empty.
   */
  lemma OptionClausesOrdered(opts: Option<QueryOptions>)
    ensures var c := OptionClauses(opts);
      && (forall i, j :: 0 <= i < j < |c| ==> Stage(c[i]) <= Stage(c[j]))
      && (forall i, j :: 0 <= i < |c| && 0 <= j < |c| && c[i].Where? && c[j].Where? ==> i == j)
      && (forall i :: 0 <= i < |c| ==> Stage(c[i]) < 3)
      && ((exists i :: 0 <= i < |c| && c[i].Where?) <==> opts.Some? && opts.value.condition != "")
  {
    if opts.Some? {
      var o := opts.value;
      var c := OptionClauses(opts);
      var p, m := |o.preloads|, |o.opts|;
      OptionClausesLayout(o);
      assert forall i :: 0 <= i < |c| ==> Stage(c[i]) == (if i < p then 0 else if i < p + m then 1 else 2) by {
        forall i | 0 <= i < |c|
          ensures Stage(c[i]) == (if i < p then 0 else if i < p + m then 1 else 2)
        {
          if p <= i < p + m {
            assert c[p + (i - p)] == Opt(o.opts[i - p]);
          }
        }
      }
      if o.condition != "" {
        assert c[p + m].Where?;
      }
    }
  }

  // ---------------------------------------------------------------------------
  // Get: dispatch and error classification
  // ---------------------------------------------------------------------------

  /**
   * The three-way dispatch of `Get`: by id, by condition, or no statement at
   * all when there is neither an id nor a usable condition.
   */
  function GetAction<T>(id: Option<Value>, opts: Option<QueryOptions>): (a: Option<Action<T>>)
    ensures a.None? <==> id.None? && (opts.None? || opts.value.condition == "")
    ensures a.Some? ==> a.value == First(id)
  {
    if id.Some? then Some(First(id))
    else if opts.Some? && opts.value.condition != "" then Some(First(None))
    else None
  }

  /**
   * The not-found sentinel becomes the "record does not exist" domain error
   * wrapping that sentinel; every other store error is passed through unchanged.
   */
  function Classify(e: StoreError): (r: Error)
    ensures r.RecordNotExist? <==> e == ErrRecordNotFound
    ensures e == ErrRecordNotFound ==> Unwrap(r) == Some(ErrRecordNotFound)
    ensures e != ErrRecordNotFound ==> r == Store(e)
    ensures !r.QueryParamEmpty?
  {
    if e == ErrRecordNotFound then RecordNotExist(e) else Store(e)
  }

  /** `GenericRepo`: a store handle and the configured not-found code. */
  datatype GenericRepo = GenericRepo(db: Handle, errorCode: int) {

    /**
     * `WithTx`: a fresh repository bound to `tx` that keeps the receiver's
     * error code. The receiver is a value and is left as it was.
     */
    function WithTx(tx: Handle): (r: GenericRepo)
      ensures r.db == tx && r.errorCode == errorCode
    {
      GenericRepo(tx, errorCode)
    }

    /** `Create`: forwarded to the store on this repository's handle. */
    function Create<T>(entity: T, outcome: Option<StoreError>): (x: Exec<T>)
      ensures x.issued == Statement(db, [], Action.Create(entity)) && x.err == outcome
    {
      Exec(Statement(db, [], Action.Create(entity)), outcome)
    }

    /** `Update`: a `Save` forwarded to the store on this repository's handle. */
    function Update<T>(entity: T, outcome: Option<StoreError>): (x: Exec<T>)
      ensures x.issued == Statement(db, [], Save(entity)) && x.err == outcome
    {
      Exec(Statement(db, [], Save(entity)), outcome)
    }

    /** `Delete`: forwarded to the store on this repository's handle. */
    function Delete<T>(id: Option<Value>, outcome: Option<StoreError>): (x: Exec<T>)
      ensures x.issued == Statement(db, [], Action.Delete(id)) && x.err == outcome
    {
      Exec(Statement(db, [], Action.Delete(id)), outcome)
    }

    /**
     * `Transaction`: the store opens the transaction handle `tx` on this
     * repository's handle and runs `fn` on it; what `fn` returns is returned.
     */
    function Transaction<T>(fn: Handle -> Option<StoreError>, tx: Handle): (x: Exec<T>)
      ensures x.issued == Statement(db, [], Action.Transaction(tx)) && x.err == fn(tx)
    {
      Exec(Statement(db, [], Action.Transaction(tx)), fn(tx))
    }

    /**
     * `Get`: applies every option clause first (the condition too, even when
     * an id is given), then runs `First` by id or by condition, or returns the
     * "query parameter empty" error without issuing anything. The store's
     * answer `outcome` is classified by `Classify`; `errorCode` is not read.
     */
    function Get<T>(id: Option<Value>, opts: Option<QueryOptions>, outcome: Outcome<T>): (g: GetResult<T>)
      ensures g.issued.None? <==> id.None? && (opts.None? || opts.value.condition == "")
      ensures g.issued.None? ==> g.entity.None? && g.err == Some(QueryParamEmpty)
      ensures g.issued.Some? ==> g.issued.value == Statement(db, OptionClauses(opts), First(id))
      ensures g.issued.Some? && outcome.Done? ==> g.entity == Some(outcome.value) && g.err.None?
      ensures g.issued.Some? && outcome.Failed? ==> g.entity.None? && g.err == Some(Classify(outcome.error))
    {
      var query := OptionClauses(opts);
      match GetAction(id, opts)
      case None => GetResult(None, None, Some(QueryParamEmpty))
      case Some(a) =>
        var issued := Some(Statement(db, query, a));
        match outcome
        case Failed(e) => GetResult(issued, None, Some(Classify(e)))
        case Done(entity) => GetResult(issued, Some(entity), None)
    }

    /** `List`: paging clauses first, then the option clauses, then `Find`. */
    method List<T>(page: int, pageSize: int, opts: Option<QueryOptions>, outcome: Outcome<seq<T>>)
      returns (entities: Option<seq<T>>, err: Option<StoreError>, issued: Statement<T>)
      ensures issued == Statement(db, [Offset(PageOffset(page, pageSize)), Limit(pageSize)] + OptionClauses(opts), Find)
      ensures outcome.Failed? ==> entities.None? && err == Some(outcome.error)
      ensures outcome.Done? ==> entities == Some(outcome.value) && err.None?
    {
      var query: seq<Clause> := [];
      var offset := (page - 1) * pageSize;
      query := query + [Offset(offset), Limit(pageSize)];
      query := ApplyQueryOptions(query, opts);
      issued := Statement(db, query, Find);
      match outcome
      case Failed(e) =>
        entities, err := None, Some(e);
      case Done(rows) =>
        entities, err := Some(rows), None;
    }

    /** `Count`: `Model` first, then the option clauses, then `Count`. */
    method Count<T>(opts: Option<QueryOptions>, outcome: Outcome<int>)
      returns (count: int, err: Option<StoreError>, issued: Statement<T>)
      ensures issued == Statement(db, [Model] + OptionClauses(opts), CountRows)
      ensures outcome.Failed? ==> count == 0 && err == Some(outcome.error)
      ensures outcome.Done? ==> count == outcome.value && err.None?
    {
      var query := [Model];
      query := ApplyQueryOptions(query, opts);
      issued := Statement(db, query, CountRows);
      match outcome
      case Failed(e) =>
        count, err := 0, Some(e);
      case Done(n) =>
        count, err := n, None;
    }
  }

  /** `NewGenericRepo`: binds `db` and the errspec not-found code. */
  function NewGenericRepo(db: Handle): (r: GenericRepo)
    ensures r.db == db && r.errorCode == Errors.Code(Errors.ErrNotFound)
  {
    GenericRepo(db, Errors.Code(Errors.ErrNotFound))
  }

  /** The offset `List` records for a 1-based page. */
  function PageOffset(page: int, pageSize: int): int
  {
    (page - 1) * pageSize
  }

  /**
   * For 1-based pages the offsets are non-negative, the first page starts at
   * zero, and the windows [offset, offset + pageSize) of two different pages
   * do not overlap.
   */
  lemma PageWindowsDisjoint(p: int, q: int, pageSize: int)
    requires 1 <= p < q && pageSize >= 0
    ensures 0 <= PageOffset(p, pageSize) && PageOffset(1, pageSize) == 0
    ensures PageOffset(p, pageSize) + pageSize <= PageOffset(q, pageSize)
  {
    assert PageOffset(q, pageSize) - PageOffset(p, pageSize) == (q - p) * pageSize;
    assert (q - p) * pageSize >= pageSize by {
      assert q - p >= 1;
    }
  }

  /** `Get` with an id still carries the option condition: it is not ignored. */
  lemma GetByIdKeepsCondition<T>(r: GenericRepo, id: Value, o: QueryOptions, outcome: Outcome<T>)
    requires o.condition != ""
    ensures var g := r.Get(Some(id), Some(o), outcome);
      && g.issued == Some(Statement(r.db, OptionClauses(Some(o)), First(Some(id))))
      && Where(o.condition, o.args) in g.issued.value.clauses
  {
  }

  /** `Get` never reads the configured error code: two repositories on one handle agree. */
  lemma GetIgnoresErrorCode<T>(r: GenericRepo, s: GenericRepo, id: Option<Value>, opts: Option<QueryOptions>, outcome: Outcome<T>)
    requires r.db == s.db
    ensures r.Get(id, opts, outcome) == s.Get(id, opts, outcome)
  {
  }

  /** Rebinding a chain of transactions: the last handle wins and the code is always kept. */
  function RebindAll(r: GenericRepo, txs: seq<Handle>): GenericRepo
    decreases |txs|
  {
    if txs == [] then r else RebindAll(r.WithTx(txs[0]), txs[1..])
  }

  lemma {:induction false} RebindAllKeepsCode(r: GenericRepo, txs: seq<Handle>)
    ensures RebindAll(r, txs).errorCode == r.errorCode
    ensures RebindAll(r, txs).db == if txs == [] then r.db else txs[|txs| - 1]
    decreases |txs|
  {
    if txs != [] {
      RebindAllKeepsCode(r.WithTx(txs[0]), txs[1..]);
    }
  }

  /**
   * Rebinding redirects every forwarded call to the transaction handle and
   * leaves the receiver's calls on the original handle.
   */
  lemma WithTxRedirects<T>(r: GenericRepo, tx: Handle, e: T, id: Option<Value>, opts: Option<QueryOptions>,
                           outcome: Outcome<T>, err: Option<StoreError>)
    ensures r.WithTx(tx).Create(e, err).issued.handle == tx && r.Create(e, err).issued.handle == r.db
    ensures r.WithTx(tx).Update(e, err).issued.handle == tx && r.Update(e, err).issued.handle == r.db
    ensures r.WithTx(tx).Delete<T>(id, err).issued.handle == tx && r.Delete<T>(id, err).issued.handle == r.db
    ensures r.WithTx(tx).Get(id, opts, outcome).issued.Some? ==> r.WithTx(tx).Get(id, opts, outcome).issued.value.handle == tx
    ensures r.Get(id, opts, outcome).issued.Some? ==> r.Get(id, opts, outcome).issued.value.handle == r.db
  {
  }
}

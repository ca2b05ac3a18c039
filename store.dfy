/** The storage behaviour the prediction endpoints rely on: a database holding the two
    prediction tables, and a per-request session that stages rows with add() and makes
    them durable with commit(). A commit either appends every staged row, assigning the
    next integer primary key and the server-side creation time, or fails and leaves both
    tables as they were. Whether the backend is reachable and the clock's reading are
    parameters. */
module Store {
  import opened Records

  /** A row staged in a session. */
  datatype Pending = NewFraud(fraud: FraudRow) | NewAnomaly(anomaly: AnomalyRow)

  /** The contents of both tables. */
  datatype Tables = Tables(fraud: seq<FraudPrediction>, anomaly: seq<AnomalyPrediction>)

  /** Each row's id is its 1-based position: what an integer primary key assigns in a table
      that is only ever appended to. */
  predicate Numbered(t: Tables)
  {
    && (forall i :: 0 <= i < |t.fraud| ==> t.fraud[i].id == i + 1)
    && (forall i :: 0 <= i < |t.anomaly| ==> t.anomaly[i].id == i + 1)
  }

  /** Numbered tables have unique primary keys. */
  lemma NumberedIdsUnique(t: Tables)
    requires Numbered(t)
    ensures FraudIdsUnique(t.fraud) && AnomalyIdsUnique(t.anomaly)
  {
  }

  /** Inserting one staged row appends it to its own table with the next id and the
      commit time; the other table is untouched. */
  function Insert(t: Tables, p: Pending, now: Timestamp): (u: Tables)
    ensures Numbered(t) ==> Numbered(u)
    ensures p.NewFraud? ==> u.anomaly == t.anomaly && u.fraud == t.fraud + [FraudPrediction(|u.fraud|, p.fraud, now)]
    ensures p.NewAnomaly? ==> u.fraud == t.fraud && u.anomaly == t.anomaly + [AnomalyPrediction(|u.anomaly|, p.anomaly, now)]
  {
    match p
    case NewFraud(r) => t.(fraud := t.fraud + [FraudPrediction(|t.fraud| + 1, r, now)])
    case NewAnomaly(r) => t.(anomaly := t.anomaly + [AnomalyPrediction(|t.anomaly| + 1, r, now)])
  }

  /** Inserting the staged rows in the order they were added. */
  function Flush(t: Tables, ps: seq<Pending>, now: Timestamp): (u: Tables)
    ensures Numbered(t) ==> Numbered(u)
    ensures |u.fraud| + |u.anomaly| == |t.fraud| + |t.anomaly| + |ps|
    ensures t.fraud <= u.fraud && t.anomaly <= u.anomaly
    decreases |ps|
  {
    if ps == [] then t
    else
      var v := Insert(t, ps[0], now);
      assert t.fraud <= v.fraud && t.anomaly <= v.anomaly;
      Flush(v, ps[1..], now)
  }

  /** Committing a single staged row is inserting it. */
  lemma FlushSingle(t: Tables, p: Pending, now: Timestamp)
    ensures Flush(t, [p], now) == Insert(t, p, now)
  {
    assert [p][1..] == [];
  }

  /** Whether a staged row's strings fit their VARCHAR columns. */
  predicate Fits(p: Pending)
  {
    match p
    case NewFraud(r) => FraudRowFits(r)
    case NewAnomaly(r) => AnomalyRowFits(r)
  }

  class Database {
    var fraud: seq<FraudPrediction>
    var anomaly: seq<AnomalyPrediction>
    /** Whether the backend rejects strings longer than their column (PostgreSQL does,
        SQLite does not). */
    const enforcesLengths: bool

    ghost predicate Valid()
      reads this
    {
      Numbered(Tables(fraud, anomaly))
    }

    function Contents(): Tables
      reads this
    {
      Tables(fraud, anomaly)
    }

    constructor(enforcesLengths: bool)
      ensures Valid() && Contents() == Tables([], [])
      ensures this.enforcesLengths == enforcesLengths
    {
      fraud, anomaly := [], [];
      this.enforcesLengths := enforcesLengths;
    }
  }

  /** A per-request database session. */
  class Session {
    const db: Database
    var pending: seq<Pending>

    constructor(db: Database)
      ensures this.db == db && pending == []
    {
      this.db := db;
      pending := [];
    }

    /** db.add(row): stage a row; nothing is written yet. */
    method Add(p: Pending)
      modifies this
      ensures pending == old(pending) + [p]
    {
      pending := pending + [p];
    }

    /** db.commit(): write every staged row, or fail and write none. The rows are
        rejected when the backend is unreachable or, on a backend that enforces column
        lengths, when a string is too long. Either way the session holds nothing staged
        afterwards (a failed transaction is rolled back when the session closes). */
    method Commit(reachable: bool, now: Timestamp) returns (ok: bool)
      requires db.Valid()
      modifies this, db
      ensures db.Valid()
      ensures ok <==> reachable && (db.enforcesLengths ==> forall p :: p in old(pending) ==> Fits(p))
      ensures ok ==> db.Contents() == Flush(old(db.Contents()), old(pending), now)
      ensures !ok ==> db.Contents() == old(db.Contents())
      ensures pending == []
    {
      ok := reachable && (db.enforcesLengths ==> forall p :: p in pending ==> Fits(p));
      if ok {
        var u := Flush(db.Contents(), pending, now);
        db.fraud, db.anomaly := u.fraud, u.anomaly;
      }
      pending := [];
    }
  }
}

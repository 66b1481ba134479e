/** The database service: revisions and tags over the store, tagged sessions over the
    revisions.  Every function gives the database after the call. */
module Database {
  import opened Storage

  datatype Tag = NoTag | GenesisTag | BlockTag(num: nat)

  datatype Db = Db(
    content: Content,
    log: map<nat, seq<WriteOp>>,      // the revert log of each revision
    current: nat,
    base: nat,
    tagRev: map<Tag, nat>,
    revTag: map<nat, Tag>,
    preset: Tag,
    reversible: bool,
    sessions: seq<seq<WriteOp>>,      // the changes of each session, oldest first
    tags: map<Tag, nat>)              // the session a tag stands for

  /** The content below session `i`. */
  function Below(c: Content, sessions: seq<seq<WriteOp>>, i: nat): Content
    requires i <= |sessions|
  {
    if i == 0 then c else Apply(Below(c, sessions, i - 1), sessions[i - 1])
  }

  /** What a reader sees. */
  function View(db: Db): Content {
    Below(db.content, db.sessions, |db.sessions|)
  }

  function Flatten(sessions: seq<seq<WriteOp>>): seq<WriteOp> {
    if sessions == [] then [] else Flatten(sessions[..|sessions| - 1]) + sessions[|sessions| - 1]
  }

  // ----- tags of revisions -----

  /** `tagRevision`, for a tag that is not empty. */
  function TagRevision(db: Db, r: nat, tag: Tag): Db {
    if r in db.revTag && db.revTag[r] == tag then db
    else
      var tagRev := db.tagRev[tag := r];
      db.(revTag := db.revTag[r := tag],
          tagRev := if r in db.revTag then tagRev - {db.revTag[r]} else tagRev)
  }

  function ApplyPreset(db: Db, r: nat): Db {
    if db.preset == NoTag then db else TagRevision(db, r, db.preset).(preset := NoTag)
  }

  /** `cleanRevTags`: forgets the tags outside the revisions kept. */
  function CleanTags(db: Db): Db {
    db.(revTag := map r | r in db.revTag && db.base <= r <= db.current :: db.revTag[r],
        tagRev := map t | t in db.tagRev
                          && !(exists r :: r in db.revTag && !(db.base <= r <= db.current) && db.revTag[r] == t)
                  :: db.tagRev[t])
  }

  // ----- revisions -----

  /** Writing a batch: one revision with its revert log, or none while reversion is off.
      An empty batch writes nothing, not even the preset tag. */
  function WriteBatch(db: Db, ops: seq<WriteOp>): Db {
    var shrunk := Shrink(ops);
    if shrunk == [] then db
    else if !db.reversible then ApplyPreset(db.(content := Apply(db.content, shrunk)), db.current)
    else
      ApplyPreset(db.(content := Apply(db.content, Issue(db.content, shrunk)),
                      log := db.log[db.current := Reverts(db.content, shrunk)],
                      current := db.current + 1), db.current + 1)
  }

  /** The content after undoing the revisions from `from` down to `to`. */
  function Undo(c: Content, log: map<nat, seq<WriteOp>>, from: nat, to: nat): Content
    requires to <= from
    decreases from - to
  {
    if from == to then c
    else Undo(Apply(c, if from - 1 in log then log[from - 1] else []), log, from - 1, to)
  }

  function RevertToTag(db: Db, tag: Tag): (Db, bool) {
    if tag !in db.tagRev || !db.reversible then (db, false)
    else
      var r := db.tagRev[tag];
      if r > db.current || r < db.base then (db, false)
      else if r == db.current then (db, true)
      else
        (CleanTags(db.(content := Undo(db.content, db.log, db.current, r), current := r,
                       log := map i | i in db.log && i < r :: db.log[i])), true)
  }

  function RebaseToRevision(db: Db, r: nat): (Db, bool) {
    if r > db.current || r < db.base then (db, false)
    else if r == db.base then (db, true)
    else (CleanTags(db.(base := r, log := map i | i in db.log && i >= r :: db.log[i])), true)
  }

  function RebaseToTag(db: Db, tag: Tag): (Db, bool) {
    if tag !in db.tagRev then (db, false) else RebaseToRevision(db, db.tagRev[tag])
  }

  function EnableReversion(db: Db, on: bool): (Db, bool) {
    if db.reversible == on then (db, true)
    else if on then (db.(reversible := true), true)
    else
      var (d, ok) := RebaseToRevision(db, db.current);
      (if ok then d.(reversible := false) else d, ok)
  }

  // ----- sessions -----

  function BeginTransaction(db: Db): Db {
    db.(sessions := db.sessions + [[]])
  }

  function BeginTransactionWithTag(db: Db, tag: Tag): Db {
    db.(tags := db.tags[tag := |db.sessions|], sessions := db.sessions + [[]])
  }

  /** A write goes to the youngest session. */
  function WriteFront(db: Db, op: WriteOp): Db
    requires db.sessions != []
  {
    var top := |db.sessions| - 1;
    db.(sessions := db.sessions[top := db.sessions[top] + [op]])
  }

  /** `EndTransaction(false)`. */
  function Discard(db: Db): (Db, bool) {
    if db.sessions == [] then (db, false)
    else
      var top := |db.sessions| - 1;
      (db.(sessions := db.sessions[..top], tags := map t | t in db.tags && db.tags[t] != top :: db.tags[t]), true)
  }

  /** `EndTransaction(true)`: the changes of the youngest session go to the one below, or to
      the store as one batch. */
  function Commit(db: Db): (Db, bool) {
    if db.sessions == [] then (db, false)
    else
      var top := |db.sessions| - 1;
      var tags := map t | t in db.tags && db.tags[t] != top :: db.tags[t];
      if top == 0 then (WriteBatch(db, db.sessions[0]).(sessions := [], tags := tags), true)
      else (db.(sessions := db.sessions[..top][top - 1 := db.sessions[top - 1] + db.sessions[top]], tags := tags), true)
  }

  /** Writes the sessions up to the tagged one to the store, as one batch. */
  function Squash(db: Db, tag: Tag): (Db, bool) {
    var d := db.(preset := tag);
    if tag !in d.tags then (d, false)
    else
      var n := d.tags[tag] + 1;
      if |d.sessions| < n then (d, false)
      else
        var w := WriteBatch(d, Flatten(d.sessions[..n]));
        (w.(sessions := d.sessions[n..], tags := map t | t in d.tags && d.tags[t] >= n :: d.tags[t] - n), true)
  }

  /** Drops the tagged session and all younger ones. */
  function RollbackTag(db: Db, tag: Tag): (Db, bool) {
    if tag !in db.tags then (db, false)
    else
      var n := db.tags[tag];
      (db.(sessions := if n <= |db.sessions| then db.sessions[..n] else db.sessions,
           tags := map t | t in db.tags && db.tags[t] < n :: db.tags[t]), true)
  }

  // ----- opening -----

  const EMPTY_DB := Db(map[], map[], 0, 0, map[], map[], NoTag, true, [], map[])

  function WriteAll(db: Db, ops: seq<WriteOp>): Db
    requires db.sessions != []
    ensures WriteAll(db, ops).sessions != []
  {
    if ops == [] then db else WriteFront(WriteAll(db, ops[..|ops| - 1]), ops[|ops| - 1])
  }

  /** `Open` on an empty database: `initGenesis` writes its rows in one session and commits
      it; the revision this makes is tagged. */
  function OpenNew(ops: seq<WriteOp>): Db {
    var d := Commit(WriteAll(BeginTransaction(EMPTY_DB), ops)).0;
    TagRevision(d, d.current, GenesisTag)
  }

  /** Closing and opening the database again: the sessions are lost, the store stays. */
  function Reopen(db: Db): Db {
    db.(preset := NoTag, reversible := true, sessions := [], tags := map[])
  }
}

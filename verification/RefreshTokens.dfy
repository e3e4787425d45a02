/** The refresh-token table and its two repositories. */
module RefreshTokens {
  import opened Common

  /** Seconds since the epoch; the clock is read after 1970. */
  type Instant = t: real | 0.0 <= t witness 0.0

  datatype RefreshTokenRecord = RefreshTokenRecord(
    id: string,
    userId: string,
    jti: string,
    expiresAt: Instant,
    revokedAt: Option<Instant>,
    createdAt: Instant)
  {
    predicate Live() {
      revokedAt.None?
    }
  }

  /** The table as both backends present it: one row per jti. */
  type Rows = map<string, RefreshTokenRecord>

  predicate IsLive(rows: Rows, jti: string) {
    jti in rows && rows[jti].Live()
  }

  ghost function LiveJtis(rows: Rows): set<string> {
    set jti | jti in rows && rows[jti].Live()
  }

  function RevokedAt(rows: Rows, jti: string, now: Instant): Rows {
    if IsLive(rows, jti) then rows[jti := rows[jti].(revokedAt := Some(now))] else rows
  }

  class InMemoryRefreshTokenRepository {
    var byJti: Rows

    constructor ()
      ensures byJti == map[]
    {
      byJti := map[];
    }

    method Create(id: string, userId: string, jti: string, expiresAt: Instant, createdAt: Instant)
      returns (record: RefreshTokenRecord)
      modifies this
      ensures record == RefreshTokenRecord(id, userId, jti, expiresAt, None, createdAt)
      ensures byJti == old(byJti)[jti := record]
    {
      record := RefreshTokenRecord(id, userId, jti, expiresAt, None, createdAt);
      byJti := byJti[jti := record];
    }

    method GetByJti(jti: string) returns (record: Option<RefreshTokenRecord>)
      ensures record.Some? <==> jti in byJti
      ensures record.Some? ==> record.value == byJti[jti]
    {
      record := if jti in byJti then Some(byJti[jti]) else None;
    }

    method Revoke(jti: string, now: Instant) returns (revoked: bool)
      modifies this
      ensures revoked == old(IsLive(byJti, jti))
      ensures byJti == old(RevokedAt(byJti, jti, now))
    {
      if jti !in byJti || byJti[jti].revokedAt.Some? {
        return false;
      }
      var record := byJti[jti];
      byJti := byJti[jti := RefreshTokenRecord(record.id, record.userId, record.jti, record.expiresAt, Some(now),
                                               record.createdAt)];
      revoked := true;
    }

    method IsRevoked(jti: string) returns (revoked: bool)
      ensures revoked <==> jti in byJti && !IsLive(byJti, jti)
    {
      revoked := jti in byJti && byJti[jti].revokedAt.Some?;
    }
  }

  // -------------------------------------------------------------------------
  // The SQL table: keyed by row id, with jti declared UNIQUE
  // -------------------------------------------------------------------------

  type Table = map<string, RefreshTokenRecord>

  ghost predicate UniqueJtis(table: Table) {
    && (forall id :: id in table ==> table[id].id == id)
    && (forall a, b :: a in table && b in table && table[a].jti == table[b].jti ==> a == b)
  }

  /** `rows` holds the rows of `table`, each under its jti, and nothing else. */
  ghost predicate Presents(table: Table, rows: Rows) {
    && (forall id :: id in table ==> table[id].jti in rows && rows[table[id].jti] == table[id])
    && (forall jti :: jti in rows ==> rows[jti].jti == jti && rows[jti].id in table && table[rows[jti].id] == rows[jti])
  }

  ghost function ByJti(table: Table): (rows: Rows)
    requires UniqueJtis(table)
    ensures Presents(table, rows)
  {
    map id | id in table :: table[id].jti := table[id]
  }

  lemma PresentsOnce(table: Table, rows: Rows)
    requires UniqueJtis(table) && Presents(table, rows)
    ensures rows == ByJti(table)
  {
    var other := ByJti(table);
    assert forall jti :: jti in rows ==> jti in other && rows[jti] == other[jti];
    assert forall jti :: jti in other ==> jti in rows;
  }

  lemma RowAdded(table: Table, rows: Rows, record: RefreshTokenRecord)
    requires UniqueJtis(table) && Presents(table, rows)
    requires record.id !in table && record.jti !in rows
    ensures UniqueJtis(table[record.id := record])
    ensures Presents(table[record.id := record], rows[record.jti := record])
  {
    var table', rows' := table[record.id := record], rows[record.jti := record];
    forall id | id in table'
      ensures table'[id].jti in rows' && rows'[table'[id].jti] == table'[id] && table'[id].id == id
    {
      assert id == record.id || id in table;
    }
    forall jti | jti in rows'
      ensures rows'[jti].jti == jti && rows'[jti].id in table' && table'[rows'[jti].id] == rows'[jti]
    {
      assert jti == record.jti || jti in rows;
    }
    forall a, b | a in table' && b in table' && table'[a].jti == table'[b].jti
      ensures a == b
    {
      assert rows'[table'[a].jti] == table'[a] && rows'[table'[b].jti] == table'[b];
    }
  }

  class SqlRefreshTokenRepository {
    var table: Table

    ghost predicate Valid()
      reads this
    {
      UniqueJtis(table)
    }

    /** The rows as seen through the UNIQUE jti column. */
    ghost function View(): Rows
      requires Valid()
      reads this
    {
      ByJti(table)
    }

    constructor ()
      ensures Valid() && View() == map[]
    {
      table := map[];
    }

    method Create(id: string, userId: string, jti: string, expiresAt: Instant, createdAt: Instant)
      returns (record: RefreshTokenRecord)
      requires Valid() && id !in table && jti !in View()
      modifies this
      ensures Valid()
      ensures record == RefreshTokenRecord(id, userId, jti, expiresAt, None, createdAt)
      ensures View() == old(View())[jti := record]
    {
      record := RefreshTokenRecord(id, userId, jti, expiresAt, None, createdAt);
      ghost var rows := View();
      RowAdded(table, rows, record);
      table := table[id := record];
      PresentsOnce(table, rows[jti := record]);
    }

    /** The row a SELECT on the jti column finds. */
    method Select(jti: string) returns (row: Option<RefreshTokenRecord>)
      requires Valid()
      ensures row.Some? <==> jti in View()
      ensures row.Some? ==> row.value == View()[jti] && row.value.id in table && table[row.value.id] == row.value
    {
      var remaining := table.Keys;
      while remaining != {}
        invariant remaining <= table.Keys
        invariant forall id :: id in table && id !in remaining ==> table[id].jti != jti
      {
        var id :| id in remaining;
        if table[id].jti == jti {
          return Some(table[id]);
        }
        remaining := remaining - {id};
      }
      row := None;
    }

    method GetByJti(jti: string) returns (record: Option<RefreshTokenRecord>)
      requires Valid()
      ensures record.Some? <==> jti in View()
      ensures record.Some? ==> record.value == View()[jti]
    {
      record := Select(jti);
    }

    method Revoke(jti: string, now: Instant) returns (revoked: bool)
      requires Valid()
      modifies this
      ensures Valid()
      ensures revoked == old(IsLive(View(), jti))
      ensures View() == old(RevokedAt(View(), jti, now))
    {
      var row := Select(jti);
      if row.None? || row.value.revokedAt.Some? {
        return false;
      }
      ghost var rows := View();
      table := table[row.value.id := row.value.(revokedAt := Some(now))];
      PresentsOnce(table, RevokedAt(rows, jti, now));
      revoked := true;
    }

    method IsRevoked(jti: string) returns (revoked: bool)
      requires Valid()
      ensures revoked <==> jti in View() && !IsLive(View(), jti)
    {
      var row := Select(jti);
      revoked := row.Some? && row.value.revokedAt.Some?;
    }
  }
}

/**
 * The persistence mappers: field-by-field conversions between database
 * rows and domain entities.
 *
 * A user row comes with its received and issued punishments, each with its
 * target and moderator user rows, and its activity rows. Mapping a user maps
 * every list in order, then links every child back to the new user. A
 * punishment's target and moderator are mapped as users with empty lists,
 * which is what bounds the mutual recursion between the user and punishment
 * mappers.
 */
module PersistenceMappers {
  import opened Common
  import opened DomainEntities

  /** The scalar columns of a user. */
  datatype UserRow = UserRow(id: string, discordId: string, tag: string, createdAt: Instant, updatedAt: Instant)

  /** The columns of an activity record. */
  datatype ActivityRow = ActivityRow(
    id: string, guildId: string, messageCount: int, voiceTimeInSeconds: int,
    userId: string, createdAt: Instant, updatedAt: Instant)

  /** The scalar columns of a punishment. */
  datatype PunishmentRow = PunishmentRow(
    id: string, caseId: int, guildId: string, punishmentType: PunishmentType,
    reason: Option<string>, expiresAt: Option<Instant>, active: bool,
    targetId: string, moderatorId: string, createdAt: Instant)

  /** A punishment row with its target and moderator user rows. */
  datatype PunishmentPayload = PunishmentPayload(row: PunishmentRow, target: UserRow, moderator: UserRow)

  /** A user row with all its relations. */
  datatype FullUserPayload = FullUserPayload(
    row: UserRow,
    punishmentsReceived: seq<PunishmentPayload>,
    punishmentsIssued: seq<PunishmentPayload>,
    activity: seq<ActivityRow>)

  /** A user row without relations, as a punishment's target or moderator is mapped. */
  function WithoutRelations(row: UserRow): (raw: FullUserPayload)
    ensures raw.row == row
    ensures raw.punishmentsReceived == [] && raw.punishmentsIssued == [] && raw.activity == []
  {
    FullUserPayload(row, [], [], [])
  }

  // ---------------------------------------------------------------------
  // toPersistence
  // ---------------------------------------------------------------------

  /** `UserMapper.toPersistence`: the five scalar fields, without relations. */
  function UserToPersistence(u: UserEntity): UserRow
    reads u
  {
    UserRow(u.id, u.discordId, u.tag, u.createdAt, u.updatedAt)
  }

  /** `UserActivityMapper.toPersistence`: the seven fields, without the `user` link. */
  function ActivityToPersistence(a: UserActivityEntity): ActivityRow
    reads a
  {
    ActivityRow(a.id, a.guildId, a.messageCount, a.voiceTimeInSeconds, a.userId, a.createdAt, a.updatedAt)
  }

  /** `PunishmentMapper.toPersistence`: the ten scalar fields; the target and moderator objects are dropped. */
  function PunishmentToPersistence(e: PunishmentEntity): PunishmentRow
    reads e
  {
    PunishmentRow(e.id, e.caseId, e.guildId, e.punishmentType, e.reason, e.expiresAt, e.active,
                  e.targetId, e.moderatorId, e.createdAt)
  }

  // ---------------------------------------------------------------------
  // What a mapped entity looks like
  // ---------------------------------------------------------------------

  /** A user mapped from `row` without relations: its scalar fields are the row's, its lists are empty. */
  predicate Unrelated(u: UserEntity, row: UserRow)
    reads u
  {
    UserToPersistence(u) == row && u.activity == [] && u.punishmentsReceived == [] && u.punishmentsIssued == []
  }

  /**
   * A punishment mapped from `p` before any back-link: the scalar fields are
   * the row's, and target and moderator are two distinct users mapped from
   * the payload's user rows.
   */
  predicate MappedPunishment(e: PunishmentEntity, p: PunishmentPayload)
    reads e, e.target, e.moderator
  {
    PunishmentToPersistence(e) == p.row
    && e.target != e.moderator
    && Unrelated(e.target, p.target)
    && Unrelated(e.moderator, p.moderator)
  }

  // ---------------------------------------------------------------------
  // toDomain
  // ---------------------------------------------------------------------

  /** `UserActivityMapper.toDomain`: a new entity with the row's fields and no `user` link. */
  method ActivityToDomain(raw: ActivityRow) returns (a: UserActivityEntity)
    ensures fresh(a)
    ensures ActivityToPersistence(a) == raw && a.user == null
  {
    a := new UserActivityEntity(raw.id, raw.guildId, raw.messageCount, raw.voiceTimeInSeconds,
                                raw.userId, raw.createdAt, raw.updatedAt);
  }

  /** `raw.activity.map(toDomain)`: one new entity per row, in order. */
  method ActivitiesToDomain(rows: seq<ActivityRow>) returns (es: seq<UserActivityEntity>)
    ensures |es| == |rows|
    ensures forall i :: 0 <= i < |rows| ==> fresh(es[i]) && ActivityToPersistence(es[i]) == rows[i] && es[i].user == null
  {
    es := [];
    var i := 0;
    while i < |rows|
      invariant 0 <= i <= |rows| && |es| == i
      invariant forall j :: 0 <= j < i ==> fresh(es[j]) && ActivityToPersistence(es[j]) == rows[j] && es[j].user == null
    {
      var a := ActivityToDomain(rows[i]);
      es := es + [a];
      i := i + 1;
    }
  }

  /**
   * `PunishmentMapper.toDomain`: a new entity with the row's ten scalar
   * fields; the target and moderator are mapped from their user rows with
   * empty relation lists.
   */
  method PunishmentToDomain(raw: PunishmentPayload) returns (e: PunishmentEntity)
    decreases 1, 0
    ensures fresh(e) && fresh(e.target) && fresh(e.moderator)
    ensures MappedPunishment(e, raw)
  {
    var target := UserToDomain(WithoutRelations(raw.target));
    var moderator := UserToDomain(WithoutRelations(raw.moderator));
    e := new PunishmentEntity(raw.row.id, raw.row.caseId, raw.row.guildId, raw.row.punishmentType,
                              raw.row.reason, raw.row.expiresAt, raw.row.active,
                              target, raw.row.targetId, moderator, raw.row.moderatorId, raw.row.createdAt);
  }

  /** `rows.map(p => punishmentMapper.toDomain(p))`: one new entity per row, in order. */
  method PunishmentsToDomain(rows: seq<PunishmentPayload>) returns (es: seq<PunishmentEntity>)
    decreases if |rows| > 0 then 1 else 0, 1
    ensures |es| == |rows|
    ensures forall i :: 0 <= i < |rows| ==>
      fresh(es[i]) && fresh(es[i].target) && fresh(es[i].moderator) && MappedPunishment(es[i], rows[i])
  {
    es := [];
    var i := 0;
    while i < |rows|
      invariant 0 <= i <= |rows| && |es| == i
      invariant forall j :: 0 <= j < i ==>
        fresh(es[j]) && fresh(es[j].target) && fresh(es[j].moderator) && MappedPunishment(es[j], rows[j])
    {
      var e := PunishmentToDomain(rows[i]);
      es := es + [e];
      i := i + 1;
    }
  }

  /**
   * `UserMapper.toDomain`: a new user with the row's five scalar fields and
   * its three lists mapped in order and kept in length; then every activity's
   * `user`, every received punishment's `target` and every issued
   * punishment's `moderator` is the new user. The other end of each
   * punishment stays the user mapped from the payload without relations.
   */
  method UserToDomain(raw: FullUserPayload) returns (u: UserEntity)
    decreases if |raw.punishmentsReceived| + |raw.punishmentsIssued| > 0 then 2 else 0, 2
    ensures fresh(u)
    ensures UserToPersistence(u) == raw.row
    ensures |u.activity| == |raw.activity|
    ensures |u.punishmentsReceived| == |raw.punishmentsReceived|
    ensures |u.punishmentsIssued| == |raw.punishmentsIssued|
    ensures forall i :: 0 <= i < |raw.activity| ==>
      fresh(u.activity[i]) && ActivityToPersistence(u.activity[i]) == raw.activity[i] && u.activity[i].user == u
    ensures forall i :: 0 <= i < |raw.punishmentsReceived| ==>
      var p := u.punishmentsReceived[i];
      fresh(p) && fresh(p.moderator) && p.target == u
      && PunishmentToPersistence(p) == raw.punishmentsReceived[i].row
      && Unrelated(p.moderator, raw.punishmentsReceived[i].moderator)
    ensures forall i :: 0 <= i < |raw.punishmentsIssued| ==>
      var p := u.punishmentsIssued[i];
      fresh(p) && fresh(p.target) && p.moderator == u
      && PunishmentToPersistence(p) == raw.punishmentsIssued[i].row
      && Unrelated(p.target, raw.punishmentsIssued[i].target)
  {
    var received := PunishmentsToDomain(raw.punishmentsReceived);
    var issued := PunishmentsToDomain(raw.punishmentsIssued);
    var activity := ActivitiesToDomain(raw.activity);
    u := new UserEntity(raw.row.id, raw.row.discordId, raw.row.tag, activity, received, issued,
                        raw.row.createdAt, raw.row.updatedAt);
    LinkActivities(u, u.activity);
    LinkTargets(u, u.punishmentsReceived);
    LinkModerators(u, u.punishmentsIssued);
  }

  /** `user.activity.forEach(a => a.user = user)`: only the `user` links change. */
  method LinkActivities(u: UserEntity, acts: seq<UserActivityEntity>)
    modifies set a | a in acts
    ensures forall a :: a in acts ==> a.user == u && ActivityToPersistence(a) == old(ActivityToPersistence(a))
  {
    forall a | a in acts {
      a.user := u;
    }
  }

  /** `user.punishmentsReceived.forEach(p => p.target = user)`: only the `target` links change. */
  method LinkTargets(u: UserEntity, ps: seq<PunishmentEntity>)
    modifies set p | p in ps
    ensures forall p :: p in ps ==>
      p.target == u && p.moderator == old(p.moderator) && PunishmentToPersistence(p) == old(PunishmentToPersistence(p))
  {
    forall p | p in ps {
      p.target := u;
    }
  }

  /** `user.punishmentsIssued.forEach(p => p.moderator = user)`: only the `moderator` links change. */
  method LinkModerators(u: UserEntity, ps: seq<PunishmentEntity>)
    modifies set p | p in ps
    ensures forall p :: p in ps ==>
      p.moderator == u && p.target == old(p.target) && PunishmentToPersistence(p) == old(PunishmentToPersistence(p))
  {
    forall p | p in ps {
      p.moderator := u;
    }
  }
}

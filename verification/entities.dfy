/**
 * The domain entities: a user with its activity records and the
 * punishments it received and issued. Fields the entities declare
 * `readonly` are constants here; the others are mutable fields. The links
 * between entities are references, so a user and its children can point
 * at each other.
 */
module DomainEntities {
  import opened Common

  /** A `Date`, as the number of milliseconds since the epoch. */
  type Instant = int

  /** The kinds of punishment; the database enum and the domain enum have the same members. */
  datatype PunishmentType = WARN | MUTE | KICK | BAN

  class UserEntity {
    const id: string
    var discordId: string
    var tag: string
    var activity: seq<UserActivityEntity>
    var punishmentsReceived: seq<PunishmentEntity>
    var punishmentsIssued: seq<PunishmentEntity>
    const createdAt: Instant
    const updatedAt: Instant

    constructor(id: string, discordId: string, tag: string, activity: seq<UserActivityEntity>,
                punishmentsReceived: seq<PunishmentEntity>, punishmentsIssued: seq<PunishmentEntity>,
                createdAt: Instant, updatedAt: Instant)
      ensures this.id == id && this.discordId == discordId && this.tag == tag
      ensures this.activity == activity
      ensures this.punishmentsReceived == punishmentsReceived && this.punishmentsIssued == punishmentsIssued
      ensures this.createdAt == createdAt && this.updatedAt == updatedAt
    {
      this.id := id;
      this.discordId := discordId;
      this.tag := tag;
      this.activity := activity;
      this.punishmentsReceived := punishmentsReceived;
      this.punishmentsIssued := punishmentsIssued;
      this.createdAt := createdAt;
      this.updatedAt := updatedAt;
    }
  }

  class UserActivityEntity {
    const id: string
    var guildId: string
    var messageCount: int
    var voiceTimeInSeconds: int
    /** The owning user; `null` until someone links it. */
    var user: UserEntity?
    const userId: string
    const createdAt: Instant
    const updatedAt: Instant

    /** Builds an activity record without its `user` link. */
    constructor(id: string, guildId: string, messageCount: int, voiceTimeInSeconds: int,
                userId: string, createdAt: Instant, updatedAt: Instant)
      ensures this.id == id && this.guildId == guildId
      ensures this.messageCount == messageCount && this.voiceTimeInSeconds == voiceTimeInSeconds
      ensures this.user == null && this.userId == userId
      ensures this.createdAt == createdAt && this.updatedAt == updatedAt
    {
      this.id := id;
      this.guildId := guildId;
      this.messageCount := messageCount;
      this.voiceTimeInSeconds := voiceTimeInSeconds;
      this.user := null;
      this.userId := userId;
      this.createdAt := createdAt;
      this.updatedAt := updatedAt;
    }
  }

  class PunishmentEntity {
    const id: string
    const caseId: int
    var guildId: string
    var punishmentType: PunishmentType
    var reason: Option<string>
    var expiresAt: Option<Instant>
    var active: bool
    var target: UserEntity
    const targetId: string
    var moderator: UserEntity
    const moderatorId: string
    const createdAt: Instant

    constructor(id: string, caseId: int, guildId: string, punishmentType: PunishmentType,
                reason: Option<string>, expiresAt: Option<Instant>, active: bool,
                target: UserEntity, targetId: string, moderator: UserEntity, moderatorId: string,
                createdAt: Instant)
      ensures this.id == id && this.caseId == caseId && this.guildId == guildId
      ensures this.punishmentType == punishmentType && this.reason == reason
      ensures this.expiresAt == expiresAt && this.active == active
      ensures this.target == target && this.targetId == targetId
      ensures this.moderator == moderator && this.moderatorId == moderatorId
      ensures this.createdAt == createdAt
    {
      this.id := id;
      this.caseId := caseId;
      this.guildId := guildId;
      this.punishmentType := punishmentType;
      this.reason := reason;
      this.expiresAt := expiresAt;
      this.active := active;
      this.target := target;
      this.targetId := targetId;
      this.moderator := moderator;
      this.moderatorId := moderatorId;
      this.createdAt := createdAt;
    }
  }
}

/**
 * `AdminService`: the admin user ids and admin guild ids, each read once
 * from a comma-separated environment variable. The environment is an input:
 * `None` for an unset variable.
 */
module Admin {
  import opened Util

  /** `map { it.trim() }`: every piece with its surrounding whitespace removed. */
  function TrimAll(parts: seq<string>): (ts: seq<string>)
    ensures |ts| == |parts| && forall i :: 0 <= i < |parts| ==> ts[i] == Trim(parts[i])
  {
    seq(|parts|, i requires 0 <= i < |parts| => Trim(parts[i]))
  }

  /** `filter { it.isNotBlank() }`: the non-blank pieces, in order. */
  function NonBlank(ts: seq<string>): (r: seq<string>)
    ensures |r| <= |ts|
    ensures forall t :: t in r <==> t in ts && !IsBlank(t)
  {
    if ts == [] then []
    else (if IsBlank(ts[0]) then [] else [ts[0]]) + NonBlank(ts[1..])
  }

  /** The non-blank trimmed pieces (`map { it.trim() }.filter { it.isNotBlank() }`). */
  function TrimmedIds(parts: seq<string>): seq<string>
  {
    NonBlank(TrimAll(parts))
  }

  /** An id survives exactly when it is not blank and is the trim of one of the pieces. */
  lemma TrimmedIdsHas(parts: seq<string>, id: string)
    ensures id in TrimmedIds(parts) <==> !IsBlank(id) && exists p :: p in parts && Trim(p) == id
  {
    var ts := TrimAll(parts);
    if exists p :: p in parts && Trim(p) == id {
      var p :| p in parts && Trim(p) == id;
      var i :| 0 <= i < |parts| && parts[i] == p;
      assert ts[i] == id;
    }
    if id in ts {
      var i :| 0 <= i < |ts| && ts[i] == id;
      assert parts[i] in parts;
    }
  }

  /** The set of ids of the variable's text (`split(",")`, trim, drop blanks, `toSet()`). */
  function ParseIds(env: Option<string>): (ids: set<string>)
    ensures env.None? || IsBlank(env.value) ==> ids == {}
  {
    if env.None? || IsBlank(env.value) then {}
    else
      var pieces := TrimmedIds(Split(env.value, ','));
      set id | id in pieces
  }

  /**
   * Every parsed id is a non-blank piece of the text between commas with its
   * surrounding whitespace removed, and every such piece is an id.
   */
  lemma ParseIdsExact(env: string, id: string)
    requires !IsBlank(env)
    ensures id in ParseIds(Some(env)) <==> !IsBlank(id) && exists p :: p in Split(env, ',') && Trim(p) == id
  {
    TrimmedIdsHas(Split(env, ','), id);
  }

  /** An id as an administrator would write it: not empty, no surrounding whitespace, no comma. */
  predicate CleanId(id: string)
  {
    id != [] && !IsWhitespace(id[0]) && !IsWhitespace(id[|id| - 1]) && ',' !in id
  }

  /** Clean ids written comma-separated parse back to exactly their set. */
  lemma ParseJoinedIds(ids: seq<string>)
    requires ids != []
    requires forall id :: id in ids ==> CleanId(id)
    ensures ParseIds(Some(Join(ids, ","))) == set id | id in ids
  {
    var env := Join(ids, ",");
    assert !IsBlank(env) by {
      JoinStartsWithFirst(ids, ",");
      assert ids[0] in ids;
      assert env[0] == ids[0][0];
    }
    forall i | 0 <= i < |ids|
      ensures ',' !in ids[i]
    {
      assert ids[i] in ids;
    }
    SplitJoin(ids, ',');
    var pieces := TrimmedIds(ids);
    assert ParseIds(Some(env)) == set id | id in pieces;
    forall id
      ensures id in pieces <==> id in ids
    {
      TrimmedIdsHas(ids, id);
      if id in ids {
        assert CleanId(id);
        assert TrimStart(id) == id;
        assert !IsBlank(id) by {
          assert !IsWhitespace(id[0]);
        }
      }
    }
  }

  class AdminService {
    const adminUserIds: set<string>
    const adminGuildIds: set<string>

    /** Reads ADMIN_USER_IDS and ADMIN_GUILD_IDS. */
    constructor (userIdsEnv: Option<string>, guildIdsEnv: Option<string>)
      ensures adminUserIds == ParseIds(userIdsEnv) && adminGuildIds == ParseIds(guildIdsEnv)
    {
      adminUserIds := ParseIds(userIdsEnv);
      adminGuildIds := ParseIds(guildIdsEnv);
    }

    /** `isAdmin`: false while no admin is configured, else membership. */
    predicate IsAdmin(userId: string)
      ensures IsAdmin(userId) <==> adminUserIds != {} && userId in adminUserIds
    {
      if adminUserIds == {} then false else userId in adminUserIds
    }

    /** `isAdminGuild`: false while no admin guild is configured, else membership. */
    predicate IsAdminGuild(guildId: string)
      ensures IsAdminGuild(guildId) <==> adminGuildIds != {} && guildId in adminGuildIds
    {
      if adminGuildIds == {} then false else guildId in adminGuildIds
    }

    /** `getAdminCount`: the number of distinct admin ids; zero exactly when nobody is an admin. */
    function GetAdminCount(): (n: nat)
      ensures n == 0 <==> forall u :: !IsAdmin(u)
    {
      AdminCountZeroIffNoAdmin();
      |adminUserIds|
    }

    lemma AdminCountZeroIffNoAdmin()
      ensures adminUserIds == {} <==> forall u :: !IsAdmin(u)
    {
      if adminUserIds != {} {
        var u :| u in adminUserIds;
        assert IsAdmin(u);
      }
    }

    function GetAdminGuildIds(): set<string>
    {
      adminGuildIds
    }
  }
}

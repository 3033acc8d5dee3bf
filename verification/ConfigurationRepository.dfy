/** repository/configuration/configuration_repository_impl.go: the durable enable flag of each user. */
module ConfigurationRepository {
  import opened Wrappers
  import opened ObjectIds

  datatype Configuration = Configuration(id: ObjectId, userId: string, enableNotifications: bool)

  // The "configurations" collection in the order a scan meets its documents
  type Configurations = seq<Configuration>

  // FindOne: the first document of the user
  function FindOne(configs: Configurations, user: string): Option<Configuration> {
    if configs == [] then None
    else if configs[0].userId == user then Some(configs[0])
    else FindOne(configs[1..], user)
  }

  // UpdateOne with $set: the id is omitted from the update when it is zero, so the document keeps its own.
  function UpdateOne(configs: Configurations, user: string, enable: bool): Configurations {
    if configs == [] then []
    else if configs[0].userId == user then [configs[0].(enableNotifications := enable)] + configs[1..]
    else [configs[0]] + UpdateOne(configs[1..], user, enable)
  }

  function CountOf(configs: Configurations, user: string): nat {
    if configs == [] then 0
    else (if configs[0].userId == user then 1 else 0) + CountOf(configs[1..], user)
  }

  lemma {:induction false} FindOneFinds(configs: Configurations, user: string)
    ensures FindOne(configs, user).Some? <==> CountOf(configs, user) > 0
    ensures FindOne(configs, user).Some? ==>
      FindOne(configs, user).value in configs && FindOne(configs, user).value.userId == user
  {
    if configs == [] {
    } else {
      FindOneFinds(configs[1..], user);
    }
  }

  // With one document of the user, any document FindOne could pick is that one: the scan order does not matter.
  lemma {:induction false} FindOneUnique(configs: Configurations, user: string, config: Configuration)
    requires CountOf(configs, user) == 1 && config in configs && config.userId == user
    ensures FindOne(configs, user) == Some(config)
  {
    if configs[0].userId == user {
      if config != configs[0] {
        assert config in configs[1..];
        PresentCounts(configs[1..], user, config);
      }
    } else {
      assert config in configs[1..];
      FindOneUnique(configs[1..], user, config);
    }
  }

  lemma {:induction false} PresentCounts(configs: Configurations, user: string, config: Configuration)
    requires config in configs && config.userId == user
    ensures CountOf(configs, user) > 0
  {
    if config != configs[0] {
      assert config in configs[1..];
      PresentCounts(configs[1..], user, config);
    }
  }

  lemma {:induction false} InsertCounts(configs: Configurations, config: Configuration, user: string)
    ensures CountOf(configs + [config], user) == CountOf(configs, user) + if config.userId == user then 1 else 0
    ensures FindOne(configs + [config], user) ==
      if FindOne(configs, user).Some? then FindOne(configs, user)
      else if config.userId == user then Some(config) else None
  {
    if configs == [] {
    } else {
      InsertCounts(configs[1..], config, user);
      assert (configs + [config])[1..] == configs[1..] + [config];
    }
  }

  // Updating a user's document changes its flag and nothing else.
  lemma {:induction false} UpdateSets(configs: Configurations, user: string, enable: bool, other: string)
    ensures CountOf(UpdateOne(configs, user, enable), other) == CountOf(configs, other)
    ensures FindOne(UpdateOne(configs, user, enable), other) ==
      if other == user && FindOne(configs, user).Some?
      then Some(FindOne(configs, user).value.(enableNotifications := enable))
      else FindOne(configs, other)
  {
    if configs == [] {
    } else {
      UpdateSets(configs[1..], user, enable, other);
    }
  }

  class ConfigurationRepository {
    var configs: Configurations

    constructor ()
      ensures configs == []
    {
      configs := [];
    }

    method FindByAppAndUser(userId: string, dbOk: bool) returns (r: Result<Configuration>)
      ensures r.Err? ==> r == Err(if dbOk then NotFound else DatabaseFault)
      ensures r.Ok? <==> dbOk && FindOne(configs, userId).Some?
      ensures r.Ok? ==> FindOne(configs, userId) == Some(r.value)
    {
      if !dbOk {
        return Err(DatabaseFault);
      }
      var found := FindOne(configs, userId);
      if found.None? {
        return Err(NotFound);
      }
      r := Ok(found.value);
    }

    // InsertOne: nothing keeps a second document of the same user out.
    method Create(userId: string, enable: bool, newId: ObjectId, dbOk: bool) returns (r: Result<ObjectId>)
      modifies this
      ensures configs == if dbOk then old(configs) + [Configuration(newId, userId, enable)] else old(configs)
      ensures r == if dbOk then Ok(newId) else Err(DatabaseFault)
    {
      if !dbOk {
        return Err(DatabaseFault);
      }
      configs := configs + [Configuration(newId, userId, enable)];
      r := Ok(newId);
    }

    method Update(userId: string, enable: bool, dbOk: bool) returns (r: Result<()>)
      modifies this
      ensures configs == if dbOk then UpdateOne(old(configs), userId, enable) else old(configs)
      ensures r == if !dbOk then Err(DatabaseFault) else if CountOf(old(configs), userId) > 0 then Ok(())
                   else Err(NotFound)
    {
      if !dbOk {
        return Err(DatabaseFault);
      }
      FindOneFinds(configs, userId);
      var matched := FindOne(configs, userId).Some?;
      configs := UpdateOne(configs, userId, enable);
      if !matched {
        return Err(NotFound);
      }
      r := Ok(());
    }
  }
}

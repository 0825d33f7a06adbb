/** The manager itself: a list that its methods change and a preference store
    that they overwrite. */
module ConfigManager {
  import opened ConfigModel
  import ConfigTheorems

  /** The two keys of the shared preferences. */
  class Preferences {
    var text: Text
    var selected: Long

    constructor ()
      ensures text == Absent && selected == -1
    {
      text, selected := Absent, -1;
    }
  }

  class ServerConfigManager {
    const prefs: Preferences
    var configs: seq<ServerConfig>

    ghost function State(): Store
      reads this, prefs
    {
      Store(configs, prefs.text, prefs.selected)
    }

    /** At every method boundary the stored list is the one in memory. */
    ghost predicate Valid()
      reads this, prefs
    {
      ConfigTheorems.Persisted(State())
    }

    constructor (prefs: Preferences)
      ensures Valid() && this.prefs == prefs
      ensures State() == Store(Decode(prefs.text), prefs.text, prefs.selected)
    {
      this.prefs := prefs;
      configs := if prefs.text.Json? then prefs.text.list else [];
    }

    method RemoveDuplicates()
      modifies this
      ensures configs == Dedup(old(configs))
    {
      var uniqueConfigs: seq<ServerConfig> := [];
      var seenIds: set<Long> := {};
      for i := 0 to |configs|
        invariant configs == old(configs)
        invariant uniqueConfigs == Dedup(configs[..i])
        invariant forall id: Long :: id in seenIds <==> Has(configs[..i], id)
      {
        var config := configs[i];
        assert Init(configs[..i + 1]) == configs[..i] && Last(configs[..i + 1]) == config;
        ConfigTheorems.HasLast(configs[..i + 1]);
        if config.id !in seenIds {
          seenIds := seenIds + {config.id};
          uniqueConfigs := uniqueConfigs + [config];
        }
      }
      assert configs[..|configs|] == configs;
      configs := uniqueConfigs;
    }

    method SaveConfigs()
      modifies this, prefs
      ensures State() == Store(Dedup(old(configs)), Json(Dedup(old(configs))), old(prefs.selected))
    {
      RemoveDuplicates();
      prefs.text := Json(configs);
    }

    /** The first configuration with the id, or nothing. */
    method GetConfigById(id: Long) returns (found: Option<ServerConfig>)
      ensures found == Find(configs, id)
      ensures found.None? <==> !Has(configs, id)
    {
      for i := 0 to |configs|
        invariant !Has(configs[..i], id)
      {
        assert Init(configs[..i + 1]) == configs[..i] && Last(configs[..i + 1]) == configs[i];
        if configs[i].id == id {
          assert forall j :: 0 <= j < i ==> configs[..i][j] in configs[..i];
          ConfigTheorems.FindIsFirst(configs, i);
          return Some(configs[i]);
        }
        ConfigTheorems.HasLast(configs[..i + 1]);
      }
      assert configs[..|configs|] == configs;
      ConfigTheorems.FindIsLookup(configs, id);
      ConfigTheorems.ViewFacts(configs);
      return None;
    }

    /** `now` is the clock; the result is the caller's object, which has been
        given an id if it had none. */
    method AddConfig(config: ServerConfig, now: Long) returns (stamped: ServerConfig)
      requires Valid()
      modifies this, prefs
      ensures Valid() && State() == Apply(old(State()), OpAdd(config, now))
      ensures stamped == Stamped(config, now)
    {
      stamped := config;
      if config.id != 0 {
        for i := 0 to |configs|
          invariant State() == old(State()) && Valid()
          invariant !Has(configs[..i], config.id)
        {
          assert Init(configs[..i + 1]) == configs[..i] && Last(configs[..i + 1]) == configs[i];
          if configs[i].id == config.id { return; }
          ConfigTheorems.HasLast(configs[..i + 1]);
        }
        assert configs[..|configs|] == configs;
      }
      if config.id == 0 {
        stamped := config.(id := now);
      }
      configs := configs + [stamped];
      SaveConfigs();
    }

    method UpdateConfig(config: ServerConfig)
      requires Valid()
      modifies this, prefs
      ensures Valid() && State() == Apply(old(State()), OpUpdate(config))
    {
      var i := 0;
      while i < |configs|
        invariant 0 <= i <= |configs| && !Has(configs[..i], config.id)
        invariant State() == old(State()) && Valid()
      {
        assert Init(configs[..i + 1]) == configs[..i] && Last(configs[..i + 1]) == configs[i];
        if configs[i].id == config.id {
          SetIsReplace(configs, i, config);
          configs := configs[i := config];
          SaveConfigs();
          return;
        }
        ConfigTheorems.HasLast(configs[..i + 1]);
        i := i + 1;
      }
      assert configs[..|configs|] == configs;
    }

    method DeleteConfig(id: Long)
      requires Valid()
      modifies this, prefs
      ensures Valid() && State() == Apply(old(State()), OpDelete(id))
    {
      configs := Without(configs, id);
      SaveConfigs();
      if prefs.selected == id {
        prefs.selected := -1;
      }
    }

    method SetLastSelectedConfigId(id: Long)
      requires Valid()
      modifies prefs
      ensures Valid() && State() == Apply(old(State()), OpSelect(id))
    {
      prefs.selected := id;
    }

    /** Finds nothing if nothing is selected or what was is gone. */
    method GetLastSelectedConfig() returns (found: Option<ServerConfig>)
      requires Valid()
      ensures prefs.selected != -1 ==> found == Find(configs, prefs.selected)
      ensures prefs.selected == -1 ==> found == None
      ensures ConfigTheorems.SelectionListed(State()) && prefs.selected != -1 ==> found.Some?
    {
      if prefs.selected != -1 {
        found := GetConfigById(prefs.selected);
      } else {
        found := None;
      }
    }
  }

  /** Setting the first position that has the id is the list-level update. */
  lemma {:induction false} SetIsReplace(s: seq<ServerConfig>, i: nat, c: ServerConfig)
    requires i < |s| && s[i].id == c.id && !Has(s[..i], c.id)
    ensures Has(s, c.id) && Replace(s, c) == s[i := c]
    decreases |s|
  {
    if i < |s| - 1 {
      assert Init(s)[..i] == s[..i] && s[i] in Init(s);
      SetIsReplace(Init(s), i, c);
    } else {
      assert Init(s) == s[..i];
    }
  }
}

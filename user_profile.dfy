/**
 * The user profile of emvr/ui/components/user_profile.py: a profile object whose
 * preference and API-key dictionaries are updated in place, and the chat session that
 * keeps a copy of it (`profile.dict()`) under "user_profile".
 *
 * Preference values are of any type `V`.
 */
module UserProfiles {
  import opened Outcomes

  /** `profile.dict()`: the profile's fields as a value. */
  datatype ProfileData<V> = ProfileData(userId: string, displayName: Option<string>,
                                        preferences: map<string, V>, apiKeys: map<string, string>)

  /** `display_name or user_id`: the given name unless it is missing or empty. */
  function DisplayNameOf(userId: string, displayName: Option<string>): (name: string)
    ensures displayName.Some? && displayName.value != "" ==> name == displayName.value
    ensures displayName.None? || displayName.value == "" ==> name == userId
  {
    if displayName.Some? && displayName.value != "" then displayName.value else userId
  }

  /** `dict.get(key, default)`. */
  function Lookup<V>(m: map<string, V>, key: string, default: V): (v: V)
    ensures key in m ==> v == m[key]
    ensures key !in m ==> v == default
  {
    if key in m then m[key] else default
  }

  class UserProfile<V> {
    var userId: string
    var displayName: Option<string>
    var preferences: map<string, V>
    var apiKeys: map<string, string>

    /** `UserProfile(user_id=…, display_name=…)`: no preferences and no API keys. */
    constructor(userId: string, displayName: Option<string>)
      ensures Data() == ProfileData(userId, displayName, map[], map[])
    {
      this.userId := userId;
      this.displayName := displayName;
      preferences := map[];
      apiKeys := map[];
    }

    /** `UserProfile(**profile_data)`. */
    constructor FromData(d: ProfileData<V>)
      ensures Data() == d
    {
      userId := d.userId;
      displayName := d.displayName;
      preferences := d.preferences;
      apiKeys := d.apiKeys;
    }

    function Data(): ProfileData<V>
      reads this
    {
      ProfileData(userId, displayName, preferences, apiKeys)
    }

    /** `get_preference`: the stored value, or the default for an absent key. */
    function GetPreference(key: string, default: V): (v: V)
      reads this
      ensures key in preferences ==> v == preferences[key]
      ensures key !in preferences ==> v == default
    {
      Lookup(preferences, key, default)
    }

    /**
     * `set_preference`: afterwards the key reads back the value, every other key reads
     * as before, and nothing else of the profile changes.
     */
    method SetPreference(key: string, value: V)
      modifies this
      ensures preferences == old(preferences)[key := value]
      ensures forall d :: GetPreference(key, d) == value
      ensures forall k, d :: k != key ==> Lookup(preferences, k, d) == Lookup(old(preferences), k, d)
      ensures userId == old(userId) && displayName == old(displayName) && apiKeys == old(apiKeys)
    {
      preferences := preferences[key := value];
    }

    /** `get_api_key`: the key for the service, None for an unknown one. */
    function GetApiKey(service: string): (k: Option<string>)
      reads this
      ensures k.Some? <==> service in apiKeys
      ensures k.Some? ==> k.value == apiKeys[service]
    {
      if service in apiKeys then Some(apiKeys[service]) else None
    }

    /**
     * `set_api_key`: afterwards the service reads back the key, every other service reads
     * as before, and the preferences are untouched.
     */
    method SetApiKey(service: string, key: string)
      modifies this
      ensures apiKeys == old(apiKeys)[service := key]
      ensures GetApiKey(service) == Some(key)
      ensures forall s :: s != service ==> GetApiKey(s) == old(GetApiKey(s))
      ensures userId == old(userId) && displayName == old(displayName) && preferences == old(preferences)
    {
      apiKeys := apiKeys[service := key];
    }
  }

  /** The chat session's "user_profile" entry. */
  class Session<V> {
    var stored: Option<ProfileData<V>>

    constructor()
      ensures stored.None?
    {
      stored := None;
    }

    /** `get_current_user_profile`: a new profile built from the stored copy, or null. */
    method GetCurrentUserProfile() returns (p: UserProfile?<V>)
      ensures stored.None? ==> p == null
      ensures stored.Some? ==> p != null && fresh(p) && p.Data() == stored.value
    {
      if stored.None? {
        return null;
      }
      p := new UserProfile.FromData(stored.value);
    }

    /**
     * `create_user_profile`: a profile named `display_name or user_id`, with no
     * preferences or keys, whose copy the session now holds.
     */
    method CreateUserProfile(userId: string, displayName: Option<string>) returns (p: UserProfile<V>)
      modifies this
      ensures fresh(p)
      ensures p.Data() == ProfileData(userId, Some(DisplayNameOf(userId, displayName)), map[], map[])
      ensures stored == Some(p.Data())
    {
      p := new UserProfile(userId, Some(DisplayNameOf(userId, displayName)));
      stored := Some(p.Data());
    }

    /** `update_user_profile`: the session holds a copy of the profile as it is now. */
    method UpdateUserProfile(p: UserProfile<V>)
      modifies this
      ensures stored == Some(p.Data())
    {
      stored := Some(p.Data());
    }
  }
}

/** The renderer's settings store: the loaded settings (or none yet) and a loading
    flag. The answer of the main process to a load or save request is an input. */
module SettingsStore {
  import opened Wrappers
  import opened Json

  /** A settings record (theme, autosave interval, data directory, ...) as its keys
      and values; a partial update is a record with some of those keys. */
  type Settings = map<string, Json>

  /** `{...current, ...update}`: every key of the update wins, every other key stays. */
  function MergedSettings(current: Settings, update: Settings): (r: Settings)
    ensures r.Keys == current.Keys + update.Keys
    ensures forall k :: k in update ==> r[k] == update[k]
    ensures forall k :: k in current && k !in update ==> r[k] == current[k]
  {
    current + update
  }

  /** An empty update changes nothing. */
  lemma MergeEmpty(current: Settings)
    ensures MergedSettings(current, map[]) == current
  {
  }

  /** Applying the same update twice is applying it once. */
  lemma MergeIdempotent(current: Settings, update: Settings)
    ensures MergedSettings(MergedSettings(current, update), update) == MergedSettings(current, update)
  {
  }

  /** Two updates in a row are one update with both, the later winning. */
  lemma MergeSequential(current: Settings, u1: Settings, u2: Settings)
    ensures MergedSettings(MergedSettings(current, u1), u2) == MergedSettings(current, MergedSettings(u1, u2))
  {
  }

  class SettingsStore {
    var settings: Option<Settings>
    var loading: bool

    constructor ()
      ensures settings == None && !loading
    {
      settings, loading := None, false;
    }

    /** `loadSettings`: raise the loading flag, ask for the settings; take them on
        success, keep the old ones on failure; the flag is down again either way. */
    method LoadSettings(response: Result<Settings, string>)
      modifies this
      ensures !loading
      ensures response.Ok? ==> settings == Some(response.value)
      ensures response.Err? ==> settings == old(settings)
    {
      loading := true;
      match response {
        case Ok(loaded) =>
          settings, loading := Some(loaded), false;
        case Err(_) =>
          loading := false;
      }
    }

    /** `updateSettings`: with no settings loaded, nothing happens. Otherwise show the
        merged settings at once and save them; if the save fails, roll back to the
        settings held before the call. */
    method UpdateSettings(update: Settings, saved: Outcome<string>)
      modifies this`settings
      ensures old(settings).None? ==> settings == None
      ensures old(settings).Some? && saved.Pass? ==> settings == Some(MergedSettings(old(settings).value, update))
      ensures old(settings).Some? && saved.Fail? ==> settings == old(settings)
    {
      if settings.None? {
        return;
      }
      var currentSettings := settings.value;
      var updated := MergedSettings(currentSettings, update);
      settings := Some(updated);
      if saved.Fail? {
        settings := Some(currentSettings);
      }
    }
  }
}

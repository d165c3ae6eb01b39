/** The Settings page (frontend/src/pages/Settings.tsx): a local copy of the settings record. */
module SettingsPage {
  import opened Wrappers
  import opened ClientApi
  import Json

  /** The literal the page starts from before the fetch answers. */
  function InitialSettings(): (obj: Json.Object)
    ensures obj.Keys == {"checkInterval", "alertThreshold", "enableNotifications", "enableEmailAlerts",
                         "enableSMSAlerts", "smtpServer", "smtpPort", "smtpUsername", "smtpPassword"}
  {
    map["checkInterval" := Json.Number(300), "alertThreshold" := Json.Number(3),
        "enableNotifications" := Json.Bool(true), "enableEmailAlerts" := Json.Bool(true),
        "enableSMSAlerts" := Json.Bool(true), "smtpServer" := Json.Str(""),
        "smtpPort" := Json.Number(587), "smtpUsername" := Json.Str(""), "smtpPassword" := Json.Str("")]
  }

  /** Whether the input named `name` is a switch (a checkbox input) in the page's markup. */
  predicate IsCheckbox(name: string) {
    name in {"enableNotifications", "enableEmailAlerts", "enableSMSAlerts"}
  }

  /**
   * The spread in `handleChange`: the named field becomes the checked flag
   * for a checkbox and the input's raw text for any other input (number
   * inputs included); every other field is kept.
   */
  function WithField(prev: Json.Object, name: string, value: string, checked: bool): (next: Json.Object)
    ensures next.Keys == prev.Keys + {name}
    ensures next[name] == if IsCheckbox(name) then Json.Bool(checked) else Json.Str(value)
    ensures forall k :: k in prev && k != name ==> next[k] == prev[k]
  {
    prev[name := if IsCheckbox(name) then Json.Bool(checked) else Json.Str(value)]
  }

  class Page {
    var settings: Json.Object
    var invalidated: seq<QueryKey>

    constructor ()
      ensures settings == InitialSettings() && invalidated == []
    {
      settings := InitialSettings();
      invalidated := [];
    }

    /** The settings query's answer: a non-ok status throws and leaves the local copy alone. */
    method Fetched(status: int, data: Json.Object) returns (failed: bool)
      modifies this
      ensures failed <==> !IsOk(status)
      ensures IsOk(status) ==> settings == data
      ensures !IsOk(status) ==> settings == old(settings)
      ensures invalidated == old(invalidated)
    {
      if !IsOk(status) {
        return true;
      }
      settings := data;
      failed := false;
    }

    method HandleChange(name: string, value: string, checked: bool)
      modifies this
      ensures settings == WithField(old(settings), name, value, checked)
      ensures invalidated == old(invalidated)
    {
      settings := WithField(settings, name, value, checked);
    }

    /** `handleSubmit` sends the whole local record. */
    method Submit() returns (body: Json.Object)
      ensures body == settings
    {
      body := settings;
    }

    /** The PUT answered with `status`: only a 2xx answer invalidates the settings key. */
    method Settle(status: int) returns (failed: bool)
      modifies this
      ensures failed <==> !IsOk(status)
      ensures IsOk(status) ==> invalidated == old(invalidated) + [SettingsKey]
      ensures !IsOk(status) ==> invalidated == old(invalidated)
      ensures settings == old(settings)
    {
      if !IsOk(status) {
        return true;
      }
      invalidated := invalidated + [SettingsKey];
      failed := false;
    }
  }
}

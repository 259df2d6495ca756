/** The notification-preferences panel: four channels, each switched on or
    off by id, with a confirmation naming the channel and its new state. */
module SmartNotifications {
  import opened Wrappers
  import opened Text
  import Seqs

  /** A channel; the icon the panel draws beside it is left out. */
  datatype Preference = Preference(
    id: string,
    title: string,
    description: string,
    enabled: bool,
    accent: string)

  const EmailText: string := "Get notified when matching items are posted"
  const SmsText: string := "Receive text messages for urgent matches"
  const PushText: string := "Instant browser notifications for new items"
  const InAppText: string := "See notifications within the platform"

  /** The channels the panel starts with: SMS off, the others on. */
  function SeedPreferences(): seq<Preference> {
    [ Preference("email", "Email Notifications", EmailText, true, "accent1"),
      Preference("sms", "SMS Alerts", SmsText, false, "accent2"),
      Preference("push", "Push Notifications", PushText, true, "accent3"),
      Preference("inapp", "In-App Messages", InAppText, true, "accent1") ]
  }

  ghost predicate UniqueIds(prefs: seq<Preference>) {
    forall i, j :: 0 <= i < j < |prefs| ==> prefs[i].id != prefs[j].id
  }

  lemma SeedUniqueIds()
    ensures UniqueIds(SeedPreferences())
  {
    var s := SeedPreferences();
    assert s[0].id == "email" && s[1].id == "sms" && s[2].id == "push" && s[3].id == "inapp";
  }

  /** The list after `togglePreference(id)`: every entry with that id has its
      switch flipped, and nothing else changes. */
  function Toggled(prefs: seq<Preference>, id: string): (r: seq<Preference>)
    ensures |r| == |prefs|
    ensures forall i :: 0 <= i < |prefs| && prefs[i].id == id ==>
      r[i] == prefs[i].(enabled := !prefs[i].enabled)
    ensures forall i :: 0 <= i < |prefs| && prefs[i].id != id ==> r[i] == prefs[i]
  {
    seq(|prefs|, i requires 0 <= i < |prefs| =>
      if prefs[i].id == id then prefs[i].(enabled := !prefs[i].enabled) else prefs[i])
  }

  /** Toggling the same channel twice restores the list. */
  lemma ToggleTwice(prefs: seq<Preference>, id: string)
    ensures Toggled(Toggled(prefs, id), id) == prefs
  {
    var once := Toggled(prefs, id);
    var twice := Toggled(once, id);
    forall i | 0 <= i < |prefs| ensures twice[i] == prefs[i] {
      assert once[i].id == prefs[i].id;
    }
  }

  /** An id naming no channel leaves the list as it was. */
  lemma ToggleUnknown(prefs: seq<Preference>, id: string)
    requires forall p :: p in prefs ==> p.id != id
    ensures Toggled(prefs, id) == prefs
  {
    forall i | 0 <= i < |prefs| ensures Toggled(prefs, id)[i] == prefs[i] {
      assert prefs[i] in prefs;
    }
  }

  /** The confirmation toast. */
  datatype Toast = Toast(title: string, description: string)

  function StateWord(enabled: bool): string {
    if enabled then "enabled" else "disabled"
  }

  /** The toast `togglePreference` raises, worded from the entry as it was
      before the switch: its new state is the opposite of the old one. */
  function ConfirmationFor(p: Preference): (t: Toast)
    ensures t.title == p.title + " " + StateWord(!p.enabled)
  {
    Toast(p.title + " " + StateWord(!p.enabled),
          if !p.enabled then "You'll now receive " + Lower(p.title)
          else "You won't receive " + Lower(p.title) + " anymore")
  }

  /** The message for toggling `id`: about the first channel with that id,
      and none for an unknown id. */
  function ToggleMessage(prefs: seq<Preference>, id: string): (m: Option<Toast>)
    ensures m.None? <==> forall p :: p in prefs ==> p.id != id
    ensures m.Some? ==> exists i :: 0 <= i < |prefs| && prefs[i].id == id
                                    && (forall j :: 0 <= j < i ==> prefs[j].id != id)
                                    && m.value == ConfirmationFor(prefs[i])
  {
    match Seqs.Find(prefs, (p: Preference) => p.id == id)
    case None => None
    case Some(p) => Some(ConfirmationFor(p))
  }

  /** The message names the state the channel is in after the toggle, so
      it says "enabled" exactly when the channel was off. */
  lemma MessageReportsNewState(prefs: seq<Preference>, id: string, i: int)
    requires 0 <= i < |prefs| && prefs[i].id == id
    requires forall j :: 0 <= j < i ==> prefs[j].id != id
    ensures ToggleMessage(prefs, id) == Some(ConfirmationFor(prefs[i]))
    ensures ToggleMessage(prefs, id).value.title ==
      prefs[i].title + " " + StateWord(Toggled(prefs, id)[i].enabled)
  {
    var m := ToggleMessage(prefs, id);
    assert prefs[i] in prefs;
    var k :| 0 <= k < |prefs| && prefs[k].id == id && (forall j :: 0 <= j < k ==> prefs[j].id != id)
             && m.value == ConfirmationFor(prefs[k]);
    assert !(k < i) && !(i < k);
  }

  /** The panel's state. */
  class SmartNotificationsState {
    var preferences: seq<Preference>

    constructor ()
      ensures preferences == SeedPreferences()
    {
      preferences := SeedPreferences();
    }

    /** `togglePreference(id)`: flips the channel and returns the toast
        raised, worded from the list as it stood before the flip. */
    method TogglePreference(id: string) returns (message: Option<Toast>)
      modifies this
      ensures preferences == Toggled(old(preferences), id)
      ensures message == ToggleMessage(old(preferences), id)
    {
      message := ToggleMessage(preferences, id);
      preferences := Toggled(preferences, id);
    }
  }
}

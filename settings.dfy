/**
  The settings page's notification preferences: a record of seven switches,
  each rewritten on its own by its switch's handler.
 */
module Settings {

  datatype NotificationSettings = NotificationSettings(
    clientInactive: bool,
    newReferral: bool,
    planEnding: bool,
    newMessage: bool,
    payoutUpdate: bool,
    emailNotifications: bool,
    pushNotifications: bool)

  /** The seven switches. */
  datatype Field =
    | ClientInactive | NewReferral | PlanEnding | NewMessage
    | PayoutUpdate | EmailNotifications | PushNotifications

  /** The initial record: every switch on except push notifications. */
  const InitialSettings := NotificationSettings(true, true, true, true, true, true, false)

  /** The value a switch shows. */
  function Get(s: NotificationSettings, f: Field): bool
  {
    match f
    case ClientInactive => s.clientInactive
    case NewReferral => s.newReferral
    case PlanEnding => s.planEnding
    case NewMessage => s.newMessage
    case PayoutUpdate => s.payoutUpdate
    case EmailNotifications => s.emailNotifications
    case PushNotifications => s.pushNotifications
  }

  /** Two records showing the same value on every switch are equal. */
  lemma SettingsExtensional(s: NotificationSettings, t: NotificationSettings)
    requires forall f :: Get(s, f) == Get(t, f)
    ensures s == t
  {
    assert Get(s, ClientInactive) == Get(t, ClientInactive);
    assert Get(s, NewReferral) == Get(t, NewReferral);
    assert Get(s, PlanEnding) == Get(t, PlanEnding);
    assert Get(s, NewMessage) == Get(t, NewMessage);
    assert Get(s, PayoutUpdate) == Get(t, PayoutUpdate);
    assert Get(s, EmailNotifications) == Get(t, EmailNotifications);
    assert Get(s, PushNotifications) == Get(t, PushNotifications);
  }

  /** `{ ...notificationSettings, <field>: checked }`: the switch `f` now
      shows `checked` and every other switch is as before. */
  function Update(s: NotificationSettings, f: Field, checked: bool): (r: NotificationSettings)
    ensures Get(r, f) == checked
    ensures forall g :: g != f ==> Get(r, g) == Get(s, g)
  {
    NotificationSettings(
      if f == ClientInactive then checked else s.clientInactive,
      if f == NewReferral then checked else s.newReferral,
      if f == PlanEnding then checked else s.planEnding,
      if f == NewMessage then checked else s.newMessage,
      if f == PayoutUpdate then checked else s.payoutUpdate,
      if f == EmailNotifications then checked else s.emailNotifications,
      if f == PushNotifications then checked else s.pushNotifications)
  }

  /** Setting a switch to the value it shows changes nothing. */
  lemma UpdateSameValue(s: NotificationSettings, f: Field)
    ensures Update(s, f, Get(s, f)) == s
  {
    SettingsExtensional(Update(s, f, Get(s, f)), s);
  }

  /** Updates of two different switches commute. */
  lemma UpdatesCommute(s: NotificationSettings, f: Field, a: bool, g: Field, b: bool)
    requires f != g
    ensures Update(Update(s, f, a), g, b) == Update(Update(s, g, b), f, a)
  {
  }

  /** A second update of the same switch overrides the first. */
  lemma UpdateOverrides(s: NotificationSettings, f: Field, a: bool, b: bool)
    ensures Update(Update(s, f, a), f, b) == Update(s, f, b)
  {
    SettingsExtensional(Update(Update(s, f, a), f, b), Update(s, f, b));
  }

  /** Only push notifications start switched off. */
  lemma InitialSwitches(f: Field)
    ensures Get(InitialSettings, f) <==> f != PushNotifications
  {
  }

  /** `SettingsPage`'s notification state. */
  class SettingsPage {
    var notificationSettings: NotificationSettings

    constructor ()
      ensures notificationSettings == InitialSettings
    {
      notificationSettings := InitialSettings;
    }

    /** The `onCheckedChange` handler of switch `f`: replaces the record by a
        copy in which only `f` is changed. */
    method SetSwitch(f: Field, checked: bool)
      modifies this
      ensures notificationSettings == Update(old(notificationSettings), f, checked)
      ensures Get(notificationSettings, f) == checked
      ensures forall g :: g != f ==> Get(notificationSettings, g) == Get(old(notificationSettings), g)
    {
      var s := notificationSettings;
      match f {
        case ClientInactive => notificationSettings := s.(clientInactive := checked);
        case NewReferral => notificationSettings := s.(newReferral := checked);
        case PlanEnding => notificationSettings := s.(planEnding := checked);
        case NewMessage => notificationSettings := s.(newMessage := checked);
        case PayoutUpdate => notificationSettings := s.(payoutUpdate := checked);
        case EmailNotifications => notificationSettings := s.(emailNotifications := checked);
        case PushNotifications => notificationSettings := s.(pushNotifications := checked);
      }
    }
  }
}

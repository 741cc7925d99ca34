/**
 * The admin's platform settings: one record of text and on/off fields,
 * switches that flip one flag, inputs that replace one text field, and a
 * save button that only confirms.
 */
module AdminSettings {
  datatype Settings = Settings(
    platformName: string,
    commissionRate: string,
    emailNotifications: bool,
    smsNotifications: bool,
    autoApproveOrders: bool,
    maintenanceMode: bool,
    minOrderAmount: string,
    maxDeliveryDays: string)

  const Defaults := Settings("FarmLink Connect", "10", true, false, false, false, "50", "7")

  /** The fields behind the switches. */
  datatype Switch = EmailNotifications | SmsNotifications | AutoApproveOrders | MaintenanceMode

  /** The fields behind the text inputs. */
  datatype TextField = PlatformName | CommissionRate | MinOrderAmount | MaxDeliveryDays

  function Flag(s: Settings, k: Switch): bool
  {
    match k
    case EmailNotifications => s.emailNotifications
    case SmsNotifications => s.smsNotifications
    case AutoApproveOrders => s.autoApproveOrders
    case MaintenanceMode => s.maintenanceMode
  }

  function FieldText(s: Settings, f: TextField): string
  {
    match f
    case PlatformName => s.platformName
    case CommissionRate => s.commissionRate
    case MinOrderAmount => s.minOrderAmount
    case MaxDeliveryDays => s.maxDeliveryDays
  }

  /** A record is determined by its four flags and its four text fields. */
  lemma SettingsByFields(s: Settings, t: Settings)
    requires forall k :: Flag(s, k) == Flag(t, k)
    requires forall f :: FieldText(s, f) == FieldText(t, f)
    ensures s == t
  {
    assert Flag(s, EmailNotifications) == Flag(t, EmailNotifications);
    assert Flag(s, SmsNotifications) == Flag(t, SmsNotifications);
    assert Flag(s, AutoApproveOrders) == Flag(t, AutoApproveOrders);
    assert Flag(s, MaintenanceMode) == Flag(t, MaintenanceMode);
    assert FieldText(s, PlatformName) == FieldText(t, PlatformName);
    assert FieldText(s, CommissionRate) == FieldText(t, CommissionRate);
    assert FieldText(s, MinOrderAmount) == FieldText(t, MinOrderAmount);
    assert FieldText(s, MaxDeliveryDays) == FieldText(t, MaxDeliveryDays);
  }

  /** `{ ...prev, [key]: !prev[key] }`: the one flag flips and nothing else moves. */
  function Toggled(s: Settings, k: Switch): (r: Settings)
    ensures Flag(r, k) == !Flag(s, k)
    ensures forall j :: j != k ==> Flag(r, j) == Flag(s, j)
    ensures forall f :: FieldText(r, f) == FieldText(s, f)
  {
    match k
    case EmailNotifications => s.(emailNotifications := !s.emailNotifications)
    case SmsNotifications => s.(smsNotifications := !s.smsNotifications)
    case AutoApproveOrders => s.(autoApproveOrders := !s.autoApproveOrders)
    case MaintenanceMode => s.(maintenanceMode := !s.maintenanceMode)
  }

  /** `{ ...s, field: e.target.value }`: the raw input text replaces that field alone. */
  function WithText(s: Settings, f: TextField, v: string): (r: Settings)
    ensures FieldText(r, f) == v
    ensures forall g :: g != f ==> FieldText(r, g) == FieldText(s, g)
    ensures forall k :: Flag(r, k) == Flag(s, k)
  {
    match f
    case PlatformName => s.(platformName := v)
    case CommissionRate => s.(commissionRate := v)
    case MinOrderAmount => s.(minOrderAmount := v)
    case MaxDeliveryDays => s.(maxDeliveryDays := v)
  }

  /** Flipping the same switch twice gives back the record. */
  lemma ToggleTwice(s: Settings, k: Switch)
    ensures Toggled(Toggled(s, k), k) == s
  {
    SettingsByFields(Toggled(Toggled(s, k), k), s);
  }

  /** Flips of different switches commute. */
  lemma TogglesCommute(s: Settings, j: Switch, k: Switch)
    ensures Toggled(Toggled(s, j), k) == Toggled(Toggled(s, k), j)
  {
    SettingsByFields(Toggled(Toggled(s, j), k), Toggled(Toggled(s, k), j));
  }

  /** Typing into a field twice keeps only the later text. */
  lemma LastInputWins(s: Settings, f: TextField, v: string, w: string)
    ensures WithText(WithText(s, f, v), f, w) == WithText(s, f, w)
  {
    SettingsByFields(WithText(WithText(s, f, v), f, w), WithText(s, f, w));
  }

  /** The confirmation `handleSave` shows. */
  datatype Toast = Toast(title: string, description: string)

  const Saved := Toast("Settings saved", "Platform settings have been updated successfully.")

  /** The page's state cell. */
  class SettingsPage {
    var settings: Settings

    constructor()
      ensures settings == Defaults
      ensures settings.commissionRate == "10" && settings.emailNotifications && !settings.maintenanceMode
    {
      settings := Defaults;
    }

    method ToggleSetting(k: Switch)
      modifies this
      ensures settings == Toggled(old(settings), k)
      ensures Flag(settings, k) == !Flag(old(settings), k)
    {
      settings := Toggled(settings, k);
    }

    method SetText(f: TextField, v: string)
      modifies this
      ensures settings == WithText(old(settings), f, v)
      ensures FieldText(settings, f) == v
    {
      settings := WithText(settings, f, v);
    }

    /** Saving shows the confirmation and stores nothing. */
    method HandleSave() returns (t: Toast)
      ensures t == Saved
      ensures settings == old(settings)
    {
      t := Saved;
    }
  }
}

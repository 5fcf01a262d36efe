// The calculator settings editor of src/components/SettingsDialog.tsx. The
// dialog declares its own five-field settings record (without the creator
// commission of the shared type), keeps a local copy, and hands every new
// record to its `onCalculatorSettingsChange` callback; the records handed
// over are kept here as a log. The page opens the dialog with the full
// settings row of the server (id, creator commission, audit columns), and the
// object spread of an edit carries those extra properties along while a reset
// builds a fresh five-field object without them.

module Settings {

  /** A property value the dialog does not know about: a number or a text. */
  datatype Extra = Num(n: real) | Str(s: string)

  /** The dialog's local `CalculatorSettings`: the five fields it edits, and
      `extra`, the properties beyond those five that the object it was given
      happened to carry (such as `creatorCommission`, `id`, `updatedAt`). */
  datatype LocalSettings = LocalSettings(
    platformCommission: real,
    vatRate: real,
    shippingThreshold: real,
    shippingFee: real,
    fullShippingCost: real,
    extra: map<string, Extra>)
  {
    function Get(k: SettingKey): real
    {
      match k
      case PlatformCommission => platformCommission
      case VatRate => vatRate
      case ShippingThreshold => shippingThreshold
      case ShippingFee => shippingFee
      case FullShippingCost => fullShippingCost
    }

    /** `{ ...settings, [k]: v }`: key `k` set to `v`, the other four kept,
        and every extra property copied by the spread. */
    function With(k: SettingKey, v: real): (r: LocalSettings)
      ensures r.Get(k) == v
      ensures forall other :: other != k ==> r.Get(other) == Get(other)
      ensures r.extra == extra
    {
      match k
      case PlatformCommission => this.(platformCommission := v)
      case VatRate => this.(vatRate := v)
      case ShippingThreshold => this.(shippingThreshold := v)
      case ShippingFee => this.(shippingFee := v)
      case FullShippingCost => this.(fullShippingCost := v)
    }
  }

  /** `keyof CalculatorSettings`. */
  datatype SettingKey = PlatformCommission | VatRate | ShippingThreshold | ShippingFee | FullShippingCost

  /** The record `resetToDefaults` installs: a literal with the five fields
      and nothing else. */
  const Defaults := LocalSettings(9.0, 20.0, 22.0, 2.29, 3.99, map[])

  /** Two records that agree on every key and on their extra properties are
      the same record. */
  lemma SettingsExtensional(a: LocalSettings, b: LocalSettings)
    requires forall k :: a.Get(k) == b.Get(k)
    requires a.extra == b.extra
    ensures a == b
  {
    assert a.Get(PlatformCommission) == b.Get(PlatformCommission);
    assert a.Get(VatRate) == b.Get(VatRate);
    assert a.Get(ShippingThreshold) == b.Get(ShippingThreshold);
    assert a.Get(ShippingFee) == b.Get(ShippingFee);
    assert a.Get(FullShippingCost) == b.Get(FullShippingCost);
  }

  /** Writing a key back with its own value changes nothing, and a later write
      to the same key overrides an earlier one. */
  lemma WithLaws(s: LocalSettings, k: SettingKey, v: real, w: real)
    ensures s.With(k, s.Get(k)) == s
    ensures s.With(k, v).With(k, w) == s.With(k, w)
  {
    SettingsExtensional(s.With(k, s.Get(k)), s);
    SettingsExtensional(s.With(k, v).With(k, w), s.With(k, w));
  }

  class SettingsDialog {
    var localSettings: LocalSettings
    /** Every record passed to `onCalculatorSettingsChange`, oldest first. */
    var emitted: seq<LocalSettings>

    /** `useState(calculatorSettings)`: the local copy starts as the given
      record and nothing has been emitted. */
    constructor(calculatorSettings: LocalSettings)
      ensures localSettings == calculatorSettings && emitted == []
    {
      localSettings := calculatorSettings;
      emitted := [];
    }

    /** `handleSettingChange`: key `k` becomes `v`, the other four keys and
      the extra properties are kept, and the callback receives exactly the new
      record, extra properties included. */
    method HandleSettingChange(k: SettingKey, v: real)
      modifies this
      ensures localSettings == old(localSettings).With(k, v)
      ensures localSettings.extra == old(localSettings).extra
      ensures emitted == old(emitted) + [localSettings]
    {
      var newSettings := localSettings.With(k, v);
      localSettings := newSettings;
      emitted := emitted + [newSettings];
    }

    /** `resetToDefaults`: the local copy becomes the defaults, whatever it
      was, and the callback receives them; the extra properties are gone. */
    method ResetToDefaults()
      modifies this
      ensures localSettings == Defaults
      ensures localSettings.extra == map[]
      ensures emitted == old(emitted) + [Defaults]
    {
      localSettings := Defaults;
      emitted := emitted + [Defaults];
    }
  }

  /** Resetting twice leaves the same settings as resetting once. */
  method ResetIdempotent(d: SettingsDialog)
    modifies d
    ensures d.localSettings == Defaults
    ensures d.emitted == old(d.emitted) + [Defaults, Defaults]
  {
    d.ResetToDefaults();
    ghost var once := d.localSettings;
    d.ResetToDefaults();
    assert d.localSettings == once;
  }
}

/**
 * Application settings (context/SettingsContext.tsx): one record replaced
 * by each setter. Held in memory only.
 */
module SettingsContext {
  import opened Types

  const INITIAL_SETTINGS := AppSettings(En, INR, Free, Privacy(false, true))

  /** What deleteUserData resets to: both privacy flags off. */
  const DELETED_SETTINGS := AppSettings(En, INR, Free, Privacy(false, false))

  /** `privacy[key]`. */
  function Flag(p: Privacy, key: PrivacyKey): bool {
    match key
    case ShareDataForCredits => p.shareDataForCredits
    case AnalyticsConsent => p.analyticsConsent
  }

  /** togglePrivacySetting's new record: the named flag negated and nothing else changed. */
  function Toggled(s: AppSettings, key: PrivacyKey): (r: AppSettings)
    ensures r.language == s.language && r.currency == s.currency && r.subscriptionTier == s.subscriptionTier
    ensures Flag(r.privacy, key) == !Flag(s.privacy, key)
    ensures forall other: PrivacyKey :: other != key ==> Flag(r.privacy, other) == Flag(s.privacy, other)
  {
    match key
    case ShareDataForCredits => s.(privacy := s.privacy.(shareDataForCredits := !s.privacy.shareDataForCredits))
    case AnalyticsConsent => s.(privacy := s.privacy.(analyticsConsent := !s.privacy.analyticsConsent))
  }

  /** Two settings with the same fields and the same flags are the same settings. */
  lemma SettingsExtensional(a: AppSettings, b: AppSettings)
    requires a.language == b.language && a.currency == b.currency && a.subscriptionTier == b.subscriptionTier
    requires forall k: PrivacyKey :: Flag(a.privacy, k) == Flag(b.privacy, k)
    ensures a == b
  {
    assert Flag(a.privacy, ShareDataForCredits) == Flag(b.privacy, ShareDataForCredits);
    assert Flag(a.privacy, AnalyticsConsent) == Flag(b.privacy, AnalyticsConsent);
  }

  /** Toggling the same flag twice restores the settings. */
  lemma ToggleTwice(s: AppSettings, key: PrivacyKey)
    ensures Toggled(Toggled(s, key), key) == s
  {
    SettingsExtensional(Toggled(Toggled(s, key), key), s);
  }

  /** Toggles of two flags commute. */
  lemma TogglesCommute(s: AppSettings, k1: PrivacyKey, k2: PrivacyKey)
    ensures Toggled(Toggled(s, k1), k2) == Toggled(Toggled(s, k2), k1)
  {
    SettingsExtensional(Toggled(Toggled(s, k1), k2), Toggled(Toggled(s, k2), k1));
  }

  /** The reset state is the initial state except that analytics consent is withdrawn. */
  lemma DeletedDiffersOnlyInAnalytics()
    ensures DELETED_SETTINGS == Toggled(INITIAL_SETTINGS, AnalyticsConsent)
    ensures DELETED_SETTINGS != INITIAL_SETTINGS
  {
  }

  class SettingsStore {
    var settings: AppSettings

    constructor ()
      ensures settings == INITIAL_SETTINGS
    {
      settings := INITIAL_SETTINGS;
    }

    method SetLanguage(lang: Language)
      modifies this
      ensures settings == old(settings).(language := lang)
    {
      settings := settings.(language := lang);
    }

    method SetCurrency(curr: Currency)
      modifies this
      ensures settings == old(settings).(currency := curr)
    {
      settings := settings.(currency := curr);
    }

    method SetSubscriptionTier(tier: SubscriptionTier)
      modifies this
      ensures settings == old(settings).(subscriptionTier := tier)
    {
      settings := settings.(subscriptionTier := tier);
    }

    method TogglePrivacySetting(key: PrivacyKey)
      modifies this
      ensures settings == Toggled(old(settings), key)
    {
      settings := Toggled(settings, key);
    }

    /** The GDPR reset; the confirmation alert is not modelled. */
    method DeleteUserData()
      modifies this
      ensures settings == DELETED_SETTINGS
    {
      settings := DELETED_SETTINGS;
    }
  }
}

/**
 The fixed `result` messages by which the API reports a bad module or a bad
 API key, with their spelling as words joined by single spaces.
 */
module Messages {
  /** The `result` message the API sends for an unknown module. */
  const ModuleSentinel: string := "Invalid Reseller Central API Module selected."
  /** The `result` message the API sends for a wrong API key. */
  const InvalidKeySentinel: string := "Invalid Reseller Central API Key provided."
  /** The `result` message the API sends when no API key came with the call. */
  const MissingKeySentinel: string := "No Reseller Central API Key provided."

  /** Each message as its words joined by single spaces. */
  lemma {:induction false} SentinelSpelling()
    ensures ModuleSentinel == "Invalid" + " " + ("Reseller" + " " + ("Central" + " " + "API")) + " " + ("Module" + " " + "selected.")
    ensures InvalidKeySentinel == "Invalid" + " " + ("Reseller" + " " + ("Central" + " " + "API")) + " " + ("Key" + " " + "provided.")
    ensures MissingKeySentinel == "No" + " " + ("Reseller" + " " + ("Central" + " " + "API")) + " " + ("Key" + " " + "provided.")
  {
    Phrases();
    ModuleChunks();
    InvalidKeyChunks();
    MissingKeyChunks();
  }

  lemma {:induction false} Phrases()
    ensures "Reseller Central API" == "Reseller" + " " + ("Central" + " " + "API")
    ensures "Module selected." == "Module" + " " + "selected."
    ensures "Key provided." == "Key" + " " + "provided."
  {
  }

  lemma {:induction false} ModuleChunks()
    ensures ModuleSentinel == "Invalid" + " " + "Reseller Central API" + " " + "Module selected."
  {
  }

  lemma {:induction false} InvalidKeyChunks()
    ensures InvalidKeySentinel == "Invalid" + " " + "Reseller Central API" + " " + "Key provided."
  {
  }

  lemma {:induction false} MissingKeyChunks()
    ensures MissingKeySentinel == "No" + " " + "Reseller Central API" + " " + "Key provided."
  {
  }
}

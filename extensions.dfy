/** The configuration helper of Utils/Extensions.cs. */
module Extensions {
  import opened Wrappers

  /** char.IsWhiteSpace: the characters of the Unicode White_Space property. */
  predicate IsWhiteSpace(c: char) {
    var n := c as int;
    (9 <= n <= 13) || n == 0x20 || n == 0x85 || n == 0xA0 || n == 0x1680
    || (0x2000 <= n <= 0x200A) || n == 0x2028 || n == 0x2029 || n == 0x202F
    || n == 0x205F || n == 0x3000
  }

  /** string.IsNullOrWhiteSpace; None stands for a null string. */
  predicate IsNullOrWhiteSpace(s: Option<string>) {
    s.None? || forall i :: 0 <= i < |s.value| ==> IsWhiteSpace(s.value[i])
  }

  /**
   * GetString: the configured value for `key` unless it is null or blank, else the default
   * unless that is blank too, else an ArgumentException. `config` holds the configured values;
   * a key without an entry reads as null.
   */
  function GetString(config: map<string, string>, key: string, defaultValue: Option<string>): (r: Result<string>)
    ensures r.Ok? <==> !IsNullOrWhiteSpace(Lookup(config, key)) || !IsNullOrWhiteSpace(defaultValue)
    ensures r.Ok? ==> !IsNullOrWhiteSpace(Some(r.value))
    ensures r.Err? ==> r.error == Argument
  {
    var value := Lookup(config, key);
    if !IsNullOrWhiteSpace(value) then Ok(value.value)
    else if !IsNullOrWhiteSpace(defaultValue) then Ok(defaultValue.value)
    else Err(Argument)
  }

  /** IConfiguration.GetValue<string>: null when the key is not configured. */
  function Lookup(config: map<string, string>, key: string): Option<string> {
    if key in config then Some(config[key]) else None
  }

  /** A usable configured value always wins over the default. */
  lemma ConfiguredValueWins(config: map<string, string>, key: string, defaultValue: Option<string>)
    requires key in config && !IsNullOrWhiteSpace(Some(config[key]))
    ensures GetString(config, key, defaultValue) == Ok(config[key])
  {
  }

  /** A missing or blank configured value falls back to a usable default. */
  lemma BlankValueFallsBack(config: map<string, string>, key: string, defaultValue: string)
    requires IsNullOrWhiteSpace(Lookup(config, key)) && !IsNullOrWhiteSpace(Some(defaultValue))
    ensures GetString(config, key, Some(defaultValue)) == Ok(defaultValue)
  {
  }
}

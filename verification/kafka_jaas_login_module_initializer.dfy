/**
 * KafkaJaasLoginModuleInitializer: the settings of the JAAS login module used
 * by the Kafka client (module class name, control flag, options), and the
 * single-entry JAAS configuration built from them once the container has
 * instantiated its singletons.
 *
 * The system property `java.security.auth.login.config` is read once, at
 * construction, and enters the model as a constructor parameter. Installing
 * the configuration globally, writing and clearing the system property and
 * the placeholder temp file are not modelled; the configuration that would be
 * installed is returned instead.
 */
module Jaas {
  import opened Support

  /** JaasUtils.LOGIN_CONTEXT_CLIENT: the login context name the Kafka client uses. */
  const LOGIN_CONTEXT_CLIENT := "KafkaClient"

  /** The login module a fresh initializer is configured with. */
  const DEFAULT_LOGIN_MODULE := "com.sun.security.auth.module.Krb5LoginModule"

  /** AppConfigurationEntry.LoginModuleControlFlag. */
  datatype ControlFlag = REQUIRED | REQUISITE | SUFFICIENT | OPTIONAL

  /** The name `setControlFlag` accepts for each flag, as its switch labels spell it. */
  function Name(flag: ControlFlag): string
  {
    match flag
    case REQUIRED => "REQUIRED"
    case REQUISITE => "REQUISITE"
    case SUFFICIENT => "SUFFICIENT"
    case OPTIONAL => "OPTIONAL"
  }

  /** LoginModuleControlFlag.toString, which `getControlFlag` returns. */
  function ControlFlagToString(flag: ControlFlag): string
  {
    "LoginModuleControlFlag: " +
      match flag
      case REQUIRED => "required"
      case REQUISITE => "requisite"
      case SUFFICIENT => "sufficient"
      case OPTIONAL => "optional"
  }

  /** Character.toUpperCase on ASCII letters; other characters are left as they are. */
  function UpperAscii(c: char): (u: char)
  {
    if 'a' <= c <= 'z' then (c as int - 32) as char else c
  }

  /** String.toUpperCase, restricted to ASCII case mapping. */
  function ToUpperCase(s: string): (u: string)
    ensures |u| == |s|
    ensures forall i :: 0 <= i < |s| ==> u[i] == UpperAscii(s[i])
  {
    if |s| == 0 then "" else [UpperAscii(s[0])] + ToUpperCase(s[1..])
  }

  /** `s` and `t` are equal once ASCII letter case is ignored. */
  predicate EqualsIgnoreCase(s: string, t: string)
  {
    |s| == |t| && forall i :: 0 <= i < |s| ==> UpperAscii(s[i]) == UpperAscii(t[i])
  }

  /**
   * The string-to-flag mapping of `setControlFlag`: the upper-cased argument
   * must be one of the four flag names.
   */
  function ParseControlFlag(controlFlag: Option<string>): (r: Result<ControlFlag>)
    ensures controlFlag.None? ==> r == Err(IllegalArgument("cannot be null"))
    ensures controlFlag.Some? ==> (r.Ok? <==> exists flag :: ToUpperCase(controlFlag.value) == Name(flag))
    ensures r.Ok? ==> Name(r.value) == ToUpperCase(controlFlag.value)
    ensures controlFlag.Some? && r.Err? ==>
      r.error == IllegalArgument(controlFlag.value + " is not a supported control flag")
  {
    match controlFlag
    case None => Err(IllegalArgument("cannot be null"))
    case Some(s) =>
      var upper := ToUpperCase(s);
      if upper == Name(OPTIONAL) then Ok(OPTIONAL)
      else if upper == Name(REQUIRED) then Ok(REQUIRED)
      else if upper == Name(REQUISITE) then Ok(REQUISITE)
      else if upper == Name(SUFFICIENT) then Ok(SUFFICIENT)
      else Err(IllegalArgument(s + " is not a supported control flag"))
  }

  /** Upper-casing a string equal to a flag name up to case gives the name itself. */
  lemma {:induction false} UpperCaseOfNameVariant(s: string, flag: ControlFlag)
    requires EqualsIgnoreCase(s, Name(flag))
    ensures ToUpperCase(s) == Name(flag)
  {
    var n := Name(flag);
    forall i | 0 <= i < |s| ensures ToUpperCase(s)[i] == n[i] {
      assert UpperAscii(n[i]) == n[i];
    }
  }

  /** A string whose upper-case form is a flag name is equal to that name up to case. */
  lemma {:induction false} NameVariantOfUpperCase(s: string, flag: ControlFlag)
    requires ToUpperCase(s) == Name(flag)
    ensures EqualsIgnoreCase(s, Name(flag))
  {
    var n := Name(flag);
    forall i | 0 <= i < |s| ensures UpperAscii(s[i]) == UpperAscii(n[i]) {
      assert UpperAscii(n[i]) == n[i];
    }
  }

  /** Each flag name, in any letter case, selects that flag. */
  lemma ParseAcceptsAnyLetterCase(s: string, flag: ControlFlag)
    requires EqualsIgnoreCase(s, Name(flag))
    ensures ParseControlFlag(Some(s)) == Ok(flag)
  {
    UpperCaseOfNameVariant(s, flag);
  }

  /** The accepted strings are exactly the four flag names up to letter case. */
  lemma ParseAcceptsOnlyFlagNames(s: string)
    ensures ParseControlFlag(Some(s)).Ok? <==> exists flag :: EqualsIgnoreCase(s, Name(flag))
  {
    if ParseControlFlag(Some(s)).Ok? {
      NameVariantOfUpperCase(s, ParseControlFlag(Some(s)).value);
    } else {
      forall flag | EqualsIgnoreCase(s, Name(flag)) ensures false {
        ParseAcceptsAnyLetterCase(s, flag);
      }
    }
  }

  /** What `getControlFlag` returns is not accepted back by `setControlFlag`. */
  lemma ControlFlagStringIsRejected(flag: ControlFlag)
    ensures ParseControlFlag(Some(ControlFlagToString(flag))).Err?
  {
    assert |ToUpperCase(ControlFlagToString(flag))| > 10;
  }

  /** javax.security.auth.login.AppConfigurationEntry. */
  datatype AppConfigurationEntry = AppConfigurationEntry(
    loginModuleName: string,
    controlFlag: ControlFlag,
    options: map<string, string>)

  /** The JAAS Configuration the initializer installs: entries by login context name. */
  datatype InternalConfiguration = InternalConfiguration(configurationEntries: map<string, seq<AppConfigurationEntry>>)
  {
    /** `getAppConfigurationEntry`: the entries for a login context name, null when there are none. */
    function GetAppConfigurationEntry(name: string): (r: Option<seq<AppConfigurationEntry>>)
      ensures r.Some? <==> name in configurationEntries
      ensures r.Some? ==> r.value == configurationEntries[name]
    {
      if name in configurationEntries then Some(configurationEntries[name]) else None
    }
  }

  /** The InternalConfiguration constructor: it rejects a null or an empty map of entries. */
  function NewInternalConfiguration(configurationEntries: Option<map<string, seq<AppConfigurationEntry>>>): (r: Result<InternalConfiguration>)
    ensures r.Ok? <==> configurationEntries.Some? && |configurationEntries.value| > 0
    ensures configurationEntries.None? ==> r == Err(IllegalArgument(" cannot be null"))
    ensures configurationEntries.Some? && |configurationEntries.value| == 0 ==> r == Err(IllegalArgument(" cannot be empty"))
    ensures r.Ok? ==> r.value.configurationEntries == configurationEntries.value
  {
    match configurationEntries
    case None => Err(IllegalArgument(" cannot be null"))
    case Some(m) => if |m| == 0 then Err(IllegalArgument(" cannot be empty")) else Ok(InternalConfiguration(m))
  }

  /** A java.util.HashMap<String, String>, updated in place. */
  class StringMap {
    var entries: map<string, string>

    constructor()
      ensures entries == map[]
    {
      entries := map[];
    }

    /** `clear`. */
    method Clear()
      modifies this
      ensures entries == map[]
    {
      entries := map[];
    }

    /** `putAll`: every entry of `source` is added, replacing the value of a key already present. */
    method PutAll(source: StringMap)
      modifies this
      ensures entries == old(entries) + old(source.entries)
    {
      entries := entries + source.entries;
    }
  }

  class KafkaJaasLoginModuleInitializer {
    /** True when the login-config system property was unset at construction. */
    const ignoreJavaLoginConfigParamSystemProperty: bool
    /** The options map; `getOptions` hands out this very object. */
    const options: StringMap
    var loginModule: string
    var controlFlag: ControlFlag

    /** `javaLoginConfigParam` is the value of the login-config system property at construction, if set. */
    constructor(javaLoginConfigParam: Option<string>)
      ensures ignoreJavaLoginConfigParamSystemProperty == javaLoginConfigParam.None?
      ensures fresh(options) && options.entries == map[]
      ensures loginModule == DEFAULT_LOGIN_MODULE && controlFlag == REQUIRED
    {
      ignoreJavaLoginConfigParamSystemProperty := javaLoginConfigParam.None?;
      options := new StringMap();
      loginModule := DEFAULT_LOGIN_MODULE;
      controlFlag := REQUIRED;
    }

    method GetLoginModule() returns (m: string)
      ensures m == loginModule
    {
      m := loginModule;
    }

    /** `setLoginModule`: a null module name is rejected and the current one kept. */
    method SetLoginModule(name: Option<string>) returns (outcome: Outcome)
      modifies this`loginModule
      ensures name.None? ==> outcome == Threw(IllegalArgument("cannot be null")) && loginModule == old(loginModule)
      ensures name.Some? ==> outcome == Done && loginModule == name.value
    {
      if name.None? {
        return Threw(IllegalArgument("cannot be null"));
      }
      loginModule := name.value;
      outcome := Done;
    }

    /** `getControlFlag`: the flag's toString, not the name `setControlFlag` accepts. */
    method GetControlFlag() returns (s: string)
      ensures s == ControlFlagToString(controlFlag)
      ensures ParseControlFlag(Some(s)).Err?
    {
      s := ControlFlagToString(controlFlag);
      ControlFlagStringIsRejected(controlFlag);
    }

    /**
     * `setControlFlag`: one of the four flag names in any letter case selects
     * that flag; null or any other string throws and leaves the flag as it was.
     */
    method SetControlFlag(name: Option<string>) returns (outcome: Outcome)
      modifies this`controlFlag
      ensures ParseControlFlag(name).Ok? ==> outcome == Done && controlFlag == ParseControlFlag(name).value
      ensures ParseControlFlag(name).Err? ==> outcome == Threw(ParseControlFlag(name).error) && controlFlag == old(controlFlag)
    {
      match ParseControlFlag(name)
      case Ok(flag) =>
        controlFlag := flag;
        outcome := Done;
      case Err(e) =>
        outcome := Threw(e);
    }

    method GetControlFlagValue() returns (flag: ControlFlag)
      ensures flag == controlFlag
    {
      flag := controlFlag;
    }

    method GetOptions() returns (m: StringMap)
      ensures m == options
    {
      m := options;
    }

    /**
     * `setOptions`: clears the options, then copies in the entries of `source`.
     * A null source throws after the clear, leaving no options; passing the
     * options map itself (what `getOptions` returns) also leaves it empty.
     */
    method SetOptions(source: StringMap?) returns (outcome: Outcome)
      modifies options
      ensures source == null ==> outcome == Threw(NullPointer) && options.entries == map[]
      ensures source != null ==> outcome == Done
      ensures source != null && source != options ==> options.entries == old(source.entries)
      ensures source == options ==> options.entries == map[]
    {
      options.Clear();
      if source == null {
        return Threw(NullPointer);
      }
      options.PutAll(source);
      outcome := Done;
    }

    /**
     * `afterSingletonsInstantiated`: when the system property was unset at
     * construction, the configuration to install maps the client login context,
     * and only it, to one entry made of the current module, flag and options.
     */
    method AfterSingletonsInstantiated() returns (installed: Option<InternalConfiguration>)
      ensures installed.Some? <==> ignoreJavaLoginConfigParamSystemProperty
      ensures installed.Some? ==> installed.value.configurationEntries.Keys == {LOGIN_CONTEXT_CLIENT}
      ensures installed.Some? ==>
        forall name :: (installed.value.GetAppConfigurationEntry(name)
                        == if name == LOGIN_CONTEXT_CLIENT
                           then Some([AppConfigurationEntry(loginModule, controlFlag, options.entries)])
                           else None)
    {
      if !ignoreJavaLoginConfigParamSystemProperty {
        return None;
      }
      var entry := AppConfigurationEntry(loginModule, controlFlag, options.entries);
      var configurationEntries := map[LOGIN_CONTEXT_CLIENT := [entry]];
      var configuration := NewInternalConfiguration(Some(configurationEntries));
      installed := Some(configuration.value);
    }
  }
}

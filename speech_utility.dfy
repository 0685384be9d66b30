/**
  `OSSSpeechUtility`: localized strings that the host application may
  override, looked up first in the application's bundle and then in the SDK's.
 */
module SpeechUtility {
  import opened Optional

  /** A resource bundle: string tables by name, each mapping keys to values. */
  datatype Bundle = Bundle(tables: map<string, map<string, string>>)

  /** What `getString` returns for an empty key. */
  const EmptyKeySentinel: string := "!&!&!&!&!&!&!&!&!&!&!&!&!&!&!"

  /** The name of the SDK's own strings table. */
  const SdkTableName: string := "Localizable"

  /** The table the platform reads when it is given an empty table name. */
  const DefaultTableName: string := "Localizable"

  /**
    The platform lookup behind `NSLocalizedString`: the entry for `key` in the
    named table (the default table when the name is empty) when there is one;
    otherwise `value` when it is not empty, else `key`.
   */
  function LocalizedString(key: string, table: string, bundle: Bundle, value: string): string {
    var t := if table == "" then DefaultTableName else table;
    if t in bundle.tables && key in bundle.tables[t] then bundle.tables[t][key]
    else if value != "" then value
    else key
  }

  /** A looked-up string is used only when it is not empty and is not the key itself. */
  predicate Usable(name: string, candidate: string) {
    candidate != "" && candidate != name
  }

  /**
    The fallback chain as a list: the first usable candidate, or `fallback`
    when none is.
   */
  function FirstUsable(name: string, candidates: seq<string>, fallback: string): (r: string)
    ensures r == fallback || exists k :: 0 <= k < |candidates| && r == candidates[k] && Usable(name, r)
    ensures (forall k :: 0 <= k < |candidates| ==> !Usable(name, candidates[k])) ==> r == fallback
    ensures forall k ::
      (0 <= k < |candidates| && Usable(name, candidates[k]) && forall m :: 0 <= m < k ==> !Usable(name, candidates[m]))
      ==> r == candidates[k]
  {
    if candidates == [] then fallback
    else if Usable(name, candidates[0]) then candidates[0]
    else FirstUsable(name, candidates[1..], fallback)
  }

  class OSSSpeechUtility {
    var tableName: string

    constructor ()
      ensures StringsTableName() == "Localizable"
    {
      tableName := "Localizable";
    }

    function StringsTableName(): string
      reads this
    {
      tableName
    }

    method SetStringsTableName(name: string)
      modifies this
      ensures StringsTableName() == name
    {
      tableName := name;
    }

    /**
      `getString(forLocalizedName:defaultValue:)`. `mainBundle` is the
      application's bundle; `sdkBundle` is the SDK's resource bundle when it
      can be found.
     */
    function GetString(name: string, defaultValue: string, mainBundle: Bundle, sdkBundle: Option<Bundle>): (r: string)
      reads this
      ensures name == "" ==> r == EmptyKeySentinel
      ensures name != "" && r == name ==> defaultValue == name
      ensures name != "" && defaultValue != "" ==> r != ""
      ensures name != "" && Usable(name, LocalizedString(name, StringsTableName(), mainBundle, "")) ==>
        r == LocalizedString(name, StringsTableName(), mainBundle, "")
      ensures name != "" && !Usable(name, LocalizedString(name, StringsTableName(), mainBundle, "")) && sdkBundle.None? ==>
        r == defaultValue
    {
      if name == "" then EmptyKeySentinel
      else
        var localString := LocalizedString(name, StringsTableName(), mainBundle, "");
        if Usable(name, localString) then localString
        else if sdkBundle.None? then defaultValue
        else
          var sdkString := LocalizedString(name, SdkTableName, sdkBundle.value, defaultValue);
          if Usable(name, sdkString) then sdkString
          else defaultValue
    }

    /**
      For a non-empty key, `GetString` is the first usable value among the
      application's entry and, when the SDK bundle exists, the SDK's entry,
      falling back to `defaultValue`.
     */
    lemma GetStringIsFallbackChain(name: string, defaultValue: string, mainBundle: Bundle, sdkBundle: Option<Bundle>)
      requires name != ""
      ensures GetString(name, defaultValue, mainBundle, sdkBundle) ==
        FirstUsable(name,
                    [LocalizedString(name, StringsTableName(), mainBundle, "")] +
                    (if sdkBundle.Some? then [LocalizedString(name, SdkTableName, sdkBundle.value, defaultValue)] else []),
                    defaultValue)
    {
      var app := LocalizedString(name, StringsTableName(), mainBundle, "");
      if sdkBundle.Some? {
        var sdk := LocalizedString(name, SdkTableName, sdkBundle.value, defaultValue);
        assert [app] + [sdk] == [app, sdk];
        assert [app, sdk][1..] == [sdk];
      } else {
        assert [app] + [] == [app];
      }
    }
  }

  /**
    With an empty strings-table name, the application's default table is
    read, so its value for the key wins over the default value.
   */
  method EmptyTableNameReadsDefaultTable() returns (r: string)
    ensures r == "v"
  {
    var utility := new OSSSpeechUtility();
    utility.SetStringsTableName("");
    var main := Bundle(map["Localizable" := map["k" := "v"]]);
    r := utility.GetString("k", "d", main, None);
  }
}

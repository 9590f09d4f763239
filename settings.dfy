/** The scanner options read from the editor's settings
    (src/infrastructure/settings/extension-settings.service.ts). The configuration
    reader is a parameter: a map from setting key to whatever value is stored. */
module ExtensionSettings {
  import opened Wrappers
  import opened Js
  import opened TaskScanner

  const IndexIncludeKey: string := "index.include"
  const IndexExcludeKey: string := "index.exclude"

  /** `readStringArray`: absent unless the setting holds an array; an array keeps
      its string entries, so an array without strings reads as the empty list. */
  function ReadStringArray(config: string -> JsValue, key: string): (r: Option<seq<string>>)
    ensures r.None? <==> !config(key).Arr?
  {
    var values := config(key);
    if !values.Arr? then None else Some(StringsOf(values.items))
  }

  /** An array setting reads as exactly its string entries. */
  lemma ReadStringArrayKeepsStrings(config: string -> JsValue, key: string, s: string)
    requires config(key).Arr?
    ensures s in ReadStringArray(config, key).value <==> Str(s) in config(key).items
  {
    StringsOfMembers(config(key).items, s);
  }

  /** `getScannerOptions`: absent when neither setting is an array; otherwise only
      the lists that were read are set. */
  function GetScannerOptions(config: string -> JsValue): (r: Option<ScannerOptions>)
    ensures r.None? <==> !config(IndexIncludeKey).Arr? && !config(IndexExcludeKey).Arr?
    ensures r.Some? ==> r.value == ScannerOptions(ReadStringArray(config, IndexIncludeKey), ReadStringArray(config, IndexExcludeKey))
    ensures r.Some? ==> ((r.value.includes.Some? <==> config(IndexIncludeKey).Arr?) &&
                         (r.value.excludes.Some? <==> config(IndexExcludeKey).Arr?))
  {
    var includes := ReadStringArray(config, IndexIncludeKey);
    var excludes := ReadStringArray(config, IndexExcludeKey);
    if includes.None? && excludes.None? then None
    else Some(ScannerOptions(includes, excludes))
  }
}

/**
 * `BasePasteFactory._import_factory`: the factory name a PasteDeploy
 * section names under the factory's key, in `<module>:<class>` or dotted
 * form, turned into the dotted name handed to the importer.
 */
module Paste {
  import opened Base
  import opened Strings
  import opened Values

  const APP_FACTORY_KEY: string := "matra.app_factory"
  const FILTER_FACTORY_KEY: string := "matra.filter_factory"

  /** The key of each factory kind; the base class has none. */
  datatype FactoryKind = BaseFactory | AppFactory | FilterFactory

  function Key(kind: FactoryKind): (k: Option<string>)
    ensures k.None? <==> kind.BaseFactory?
  {
    match kind
    case BaseFactory => None
    case AppFactory => Some(APP_FACTORY_KEY)
    case FilterFactory => Some(FILTER_FACTORY_KEY)
  }

  /** The dotted class name `_import_factory` imports: every ':' becomes '.',
      then surrounding whitespace (ConfigParser's leading newline) is
      stripped. A missing key, including the base class's None, is a KeyError. */
  function ImportFactoryName(localConf: map<string, string>, kind: FactoryKind): (r: Result<string, Exc>)
    ensures r.Success? <==> Key(kind).Some? && Key(kind).value in localConf
    ensures r.Failure? ==> r.error.PyError? && r.error.kind == KeyError
    ensures r.Success? ==> ':' !in r.value
    ensures r.Success? ==> r.value == [] || (!IsSpace(r.value[0]) && !IsSpace(r.value[|r.value| - 1]))
    ensures r.Success? ==> |r.value| <= |localConf[Key(kind).value]|
  {
    match Key(kind)
    case None => Failure(PyError(KeyError, Plain("None")))
    case Some(key) =>
      if key !in localConf then Failure(PyError(KeyError, Plain(key)))
      else
        var replaced := ReplaceChar(localConf[key], ':', '.');
        var name := Strip(replaced);
        assert forall k :: 0 <= k < |name| ==> name[k] in replaced;
        Success(name)
  }

  /** A `<module>:<class>` value padded with whitespace names the dotted
      `<module>.<class>`. */
  lemma ModuleColonClass(kind: FactoryKind, pre: string, moduleName: string, className: string, post: string)
    requires kind != BaseFactory
    requires AllSpace(pre) && AllSpace(post)
    requires ':' !in moduleName && ':' !in className
    requires moduleName != [] && !IsSpace(moduleName[0])
    requires className != [] && !IsSpace(className[|className| - 1])
    ensures ImportFactoryName(map[Key(kind).value := pre + moduleName + ":" + className + post], kind)
      == Success(moduleName + "." + className)
  {
    var value := pre + moduleName + ":" + className + post;
    var dotted := moduleName + "." + className;
    var replaced := ReplaceChar(value, ':', '.');
    assert ':' !in pre && ':' !in post;
    assert replaced == pre + dotted + post;
    StripPadded(pre, dotted, post);
  }

  /** Feeding a name back through the factory lookup changes nothing. */
  lemma ImportFactoryNameIdempotent(localConf: map<string, string>, kind: FactoryKind)
    requires ImportFactoryName(localConf, kind).Success?
    ensures var name := ImportFactoryName(localConf, kind).value;
      ImportFactoryName(localConf[Key(kind).value := name], kind) == Success(name)
  {
    var name := ImportFactoryName(localConf, kind).value;
    assert ReplaceChar(name, ':', '.') == name;
    StripIdempotent(ReplaceChar(localConf[Key(kind).value], ':', '.'));
  }
}

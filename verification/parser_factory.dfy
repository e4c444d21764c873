/**
 * `geo::ParserFactory`: detector-description parsers by name. Unlike the
 * plugin registries, registering a name again replaces its creator.
 */
module ParserFactory {
  import opened Wrappers
  import opened Parameters

  /** A parser creator, from its parameters and the conditions interface `C`. */
  type Creator<P, !C> = (Parameters, C) -> P

  datatype Factory<P, !C> = Factory(creators: map<string, Creator<P, C>>)

  /** `registerParser`: insert or overwrite, with no duplicate check. */
  function RegisterParser<P, C>(f: Factory<P, C>, name: string, create: Creator<P, C>): (r: Factory<P, C>)
    ensures r.creators.Keys == f.creators.Keys + {name}
    ensures r.creators[name] == create
    ensures forall n :: n in f.creators && n != name ==> r.creators[n] == f.creators[n]
  {
    Factory(f.creators[name := create])
  }

  /** The constructor: only the GDML parser, under "gdml". */
  function Initial<P, C>(gdml: Creator<P, C>): (r: Factory<P, C>)
    ensures r.creators.Keys == {"gdml"}
  {
    RegisterParser(Factory(map[]), "gdml", gdml)
  }

  /** `createParser`: "ParserNotFound" for an unregistered name, otherwise the creator's parser. */
  function CreateParser<P, C>(f: Factory<P, C>, name: string, params: Parameters, ci: C): (r: Result<P>)
    ensures r.Err? <==> name !in f.creators
    ensures r.Err? ==> r.error == "ParserNotFound"
    ensures r.Ok? ==> name in f.creators && r.value == f.creators[name](params, ci)
  {
    if name !in f.creators then Err("ParserNotFound") else Ok(f.creators[name](params, ci))
  }

  /**
   * A parser is created by the creator registered last under its name; a
   * fresh factory creates GDML parsers and nothing else.
   */
  lemma CreateUsesLastRegistration<P, C>(f: Factory<P, C>, name: string, c1: Creator<P, C>, c2: Creator<P, C>,
                                         params: Parameters, ci: C)
    ensures CreateParser(RegisterParser(RegisterParser(f, name, c1), name, c2), name, params, ci) == Ok(c2(params, ci))
  {
  }

  lemma InitialCreatesOnlyGdml<P, C>(gdml: Creator<P, C>, name: string, params: Parameters, ci: C)
    ensures CreateParser(Initial(gdml), name, params, ci)
      == if name == "gdml" then Ok(gdml(params, ci)) else Err("ParserNotFound")
  {
  }
}

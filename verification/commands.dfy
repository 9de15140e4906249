/**
  The AutoGPT-style command registry of `WeatherCommand` and `TravelAgentCommands`: a table of
  commands keyed by name (in the dictionary's insertion order), dispatch by name with an
  "Unknown command" answer for names it does not know, and the OpenAI function-calling schema
  derived from it.
 */
module Commands {
  import opened Wrappers
  import WeatherTools
  import TravelTools

  /** One entry of a command's "parameters" dictionary. */
  datatype Param = Param(name: string, typ: string, description: string)

  /** The Python method a registry entry's "function" field is bound to. */
  datatype Handler = GetWeather | SearchDestinations | CheckAvailability

  /** One registry entry; `required` is absent when the entry has no "required" key. */
  datatype Command = Command(
    name: string,
    handler: Handler,
    description: string,
    parameters: seq<Param>,
    required: Option<seq<string>>)

  /** The registry dictionary, as its entries in insertion order. */
  type Registry = seq<Command>

  /** Keyword arguments of a call, already decoded from the model's JSON. */
  type Args = map<string, string>

  /** Dictionary keys are unique. */
  predicate WellFormed(reg: Registry) {
    forall i, j | 0 <= i < j < |reg| :: reg[i].name != reg[j].name
  }

  /** The keyword parameters of the handler's Python signature (after `self`). */
  function Formals(h: Handler): set<string> {
    match h
    case GetWeather => {"city"}
    case SearchDestinations => {"destination"}
    case CheckAvailability => {"destination", "dates"}
  }

  /** Calling the bound method with keyword arguments that match its signature. */
  function Invoke(h: Handler, args: Args): string
    requires args.Keys == Formals(h)
  {
    match h
    case GetWeather => WeatherTools.GetWeather(args["city"])
    case SearchDestinations => TravelTools.SearchDestinations(args["destination"])
    case CheckAvailability => TravelTools.CheckAvailability(args["destination"], args["dates"])
  }

  /** The TypeError Python raises when keyword arguments do not bind to a signature. */
  datatype CommandError = UnboundArguments(callee: string, given: set<string>)

  /** The parameters of `execute_command(self, command_name, **kwargs)` that a keyword
      argument may not repeat. */
  const DispatcherParams: set<string> := {"self", "command_name"}

  /** `command_name in self.commands`, then `self.commands[command_name]`. */
  function Find(reg: Registry, name: string): (r: Option<Command>)
    ensures r.None? <==> forall i | 0 <= i < |reg| :: reg[i].name != name
    ensures r.Some? ==> r.value in reg && r.value.name == name
  {
    if |reg| == 0 then None
    else if reg[0].name == name then Some(reg[0])
    else
      assert forall i | 1 <= i < |reg| :: reg[i] == reg[1..][i - 1];
      Find(reg[1..], name)
  }

  /** In a well-formed registry, looking up an entry's own name finds that entry. */
  lemma {:induction false} FindEntry(reg: Registry, i: nat)
    requires WellFormed(reg) && i < |reg|
    ensures Find(reg, reg[i].name) == Some(reg[i])
  {
    if i > 0 {
      assert WellFormed(reg[1..]) by {
        forall a, b | 0 <= a < b < |reg[1..]| ensures reg[1..][a].name != reg[1..][b].name {
          assert reg[1..][a] == reg[a + 1] && reg[1..][b] == reg[b + 1];
        }
      }
      assert reg[1..][i - 1] == reg[i];
      FindEntry(reg[1..], i - 1);
    }
  }

  /** `execute_command(command_name, **kwargs)`: a registered name runs its method, any
      other name gets the "Unknown command" answer instead of an exception. A TypeError is
      raised when the arguments do not bind: when they repeat a parameter of the dispatcher
      itself, or when they differ from the signature of the registered method. */
  function ExecuteCommand(reg: Registry, name: string, args: Args): (r: Result<string, CommandError>)
    ensures r.Success? <==>
      args.Keys !! DispatcherParams
      && (Find(reg, name).Some? ==> args.Keys == Formals(Find(reg, name).value.handler))
    ensures r.Success? && Find(reg, name).None? ==> r.value == "Unknown command: " + name
    ensures r.Success? && Find(reg, name).Some? ==> r.value == Invoke(Find(reg, name).value.handler, args)
  {
    if !(args.Keys !! DispatcherParams) then
      Failure(UnboundArguments("execute_command", args.Keys))
    else
      match Find(reg, name)
      case Some(command) =>
        if args.Keys == Formals(command.handler) then Success(Invoke(command.handler, args))
        else Failure(UnboundArguments(name, args.Keys))
      case None =>
        Success("Unknown command: " + name)
  }

  /** No registered method ever answers in the form of the unknown-command message. */
  lemma HandlerNeverSaysUnknown(h: Handler, args: Args)
    requires args.Keys == Formals(h)
    ensures |Invoke(h, args)| > 0 && Invoke(h, args)[0] != 'U'
  {
    match h
    case GetWeather =>
      var city := args["city"];
      if city !in WeatherTools.KnownCities {
        assert Invoke(h, args)[0] == 'W';
      }
    case SearchDestinations =>
      var d := args["destination"];
      if d !in TravelTools.KnownDestinations {
        assert Invoke(h, args)[0] == 'I';
      }
    case CheckAvailability =>
      var r := Invoke(h, args);
      assert r[..|"Available for "|] == "Available for " + args["destination"] + " during "
        ==> r[0] == 'A';
  }

  /** The "Unknown command" answer comes back exactly when the name is not registered (and
      the arguments do not collide with the dispatcher's own parameters). */
  lemma UnknownIffUnregistered(reg: Registry, name: string, args: Args)
    ensures ExecuteCommand(reg, name, args) == Success("Unknown command: " + name)
        <==> Find(reg, name).None? && args.Keys !! DispatcherParams
  {
    var r := ExecuteCommand(reg, name, args);
    if r.Success? && Find(reg, name).Some? {
      HandlerNeverSaysUnknown(Find(reg, name).value.handler, args);
      assert ("Unknown command: " + name)[0] == 'U';
    }
  }

  /** The "parameters" object of one function schema. */
  datatype SchemaParameters = SchemaParameters(typ: string, properties: seq<Param>, required: seq<string>)

  /** One OpenAI function declaration. */
  datatype Schema = Schema(name: string, description: string, parameters: SchemaParameters)

  function SchemaOf(c: Command): Schema {
    Schema(c.name, c.description, SchemaParameters("object", c.parameters, c.required.GetOr([])))
  }

  /** `get_commands_schema()`: one declaration per entry, in registry order. */
  function GetCommandsSchema(reg: Registry): (schemas: seq<Schema>)
    ensures |schemas| == |reg|
    ensures forall i | 0 <= i < |reg| ::
      && schemas[i].name == reg[i].name
      && schemas[i].description == reg[i].description
      && schemas[i].parameters.typ == "object"
      && schemas[i].parameters.properties == reg[i].parameters
      && schemas[i].parameters.required == reg[i].required.GetOr([])
  {
    if |reg| == 0 then []
    else
      assert forall i | 1 <= i < |reg| :: reg[i] == reg[1..][i - 1];
      [SchemaOf(reg[0])] + GetCommandsSchema(reg[1..])
  }

  /** Every function the schema advertises dispatches to the entry it was derived from. */
  lemma AdvertisedNamesDispatch(reg: Registry, i: nat)
    requires WellFormed(reg) && i < |reg|
    ensures Find(reg, GetCommandsSchema(reg)[i].name) == Some(reg[i])
    ensures SchemaOf(reg[i]) == GetCommandsSchema(reg)[i]
  {
    FindEntry(reg, i);
  }

  /** The declared parameters and required list match the method's signature, so a call
      that supplies exactly the required arguments binds. */
  predicate Consistent(c: Command) {
    && (set p | p in c.parameters :: p.name) == Formals(c.handler)
    && c.required.Some?
    && (set k | k in c.required.value) == Formals(c.handler)
  }

  const WeatherRegistry: Registry := [
    Command("get_weather", GetWeather, "Get current weather for a city",
      [Param("city", "string", "The city to get weather for")], Some(["city"]))
  ]

  const TravelRegistry: Registry := [
    Command("search_destinations", SearchDestinations, "Search for travel information about a destination",
      [Param("destination", "string", "The destination to research")], Some(["destination"])),
    Command("check_availability", CheckAvailability, "Check hotel and flight availability",
      [Param("destination", "string", "The destination"), Param("dates", "string", "Travel dates")],
      Some(["destination", "dates"]))
  ]

  /** `WeatherCommand` registers exactly one command, "get_weather", requiring "city"; its
      schema has one declaration whose properties are the registered parameters. */
  lemma WeatherRegistryShape()
    ensures WellFormed(WeatherRegistry) && |WeatherRegistry| == 1
    ensures WeatherRegistry[0].name == "get_weather"
    ensures WeatherRegistry[0].required == Some(["city"])
    ensures Consistent(WeatherRegistry[0])
    ensures |GetCommandsSchema(WeatherRegistry)| == 1
    ensures GetCommandsSchema(WeatherRegistry)[0].parameters.properties == WeatherRegistry[0].parameters
  {
    var c := WeatherRegistry[0];
    assert (set p | p in c.parameters :: p.name) == {"city"} by {
      assert c.parameters == [Param("city", "string", "The city to get weather for")];
    }
    assert (set k | k in c.required.value) == {"city"} by {
      assert c.required.value == ["city"];
    }
  }

  /** `TravelAgentCommands` registers "search_destinations" then "check_availability", each
      consistent with its method's signature. */
  lemma TravelRegistryShape()
    ensures WellFormed(TravelRegistry) && |TravelRegistry| == 2
    ensures TravelRegistry[0].name == "search_destinations" && TravelRegistry[1].name == "check_availability"
    ensures forall i | 0 <= i < |TravelRegistry| :: Consistent(TravelRegistry[i])
    ensures [GetCommandsSchema(TravelRegistry)[0].name, GetCommandsSchema(TravelRegistry)[1].name]
         == ["search_destinations", "check_availability"]
  {
    var s, a := TravelRegistry[0], TravelRegistry[1];
    assert (set p | p in s.parameters :: p.name) == {"destination"} by {
      assert s.parameters == [Param("destination", "string", "The destination to research")];
    }
    assert (set k | k in s.required.value) == {"destination"} by {
      assert s.required.value == ["destination"];
    }
    assert (set p | p in a.parameters :: p.name) == {"destination", "dates"} by {
      assert a.parameters == [Param("destination", "string", "The destination"), Param("dates", "string", "Travel dates")];
    }
    assert (set k | k in a.required.value) == {"destination", "dates"} by {
      assert a.required.value == ["destination", "dates"];
    }
  }

  /** A call naming a consistent entry with exactly its required arguments runs the method. */
  lemma RequiredArgumentsBind(reg: Registry, i: nat, args: Args)
    requires WellFormed(reg) && i < |reg| && Consistent(reg[i])
    requires args.Keys == (set k | k in reg[i].required.value)
    ensures ExecuteCommand(reg, reg[i].name, args) == Success(Invoke(reg[i].handler, args))
  {
    FindEntry(reg, i);
    assert args.Keys !! DispatcherParams;
  }
}

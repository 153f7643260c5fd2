/** The command tree: categories are composed into the tree of commands the CLI library runs. */
module Cli {
  import opened Options

  type Handler = nat

  /** cli.Command of the library; the driver's Config is the same type. */
  datatype Config = Config(name: string, action: Option<Handler>, subcommands: seq<Config>)

  datatype Command = Command(config: Config, handler: Handler)

  datatype Category = Category(config: Config, subCategories: seq<Category>, subCommands: seq<Command>)

  // ----- what a tree offers -----

  /** A path of names from the root of a tree, and what runs there. */
  type Binding = (seq<string>, Handler)

  function Under(name: string, bindings: seq<Binding>): seq<Binding> {
    seq(|bindings|, i requires 0 <= i < |bindings| => ([name] + bindings[i].0, bindings[i].1))
  }

  function Own(name: string, action: Option<Handler>): seq<Binding> {
    match action
    case None => []
    case Some(h) => [([name], h)]
  }

  /** Everything that can be run in a composed tree, in order. */
  function Bindings(c: Config): seq<Binding> {
    Own(c.name, c.action) + Under(c.name, BindingsOfAll(c.subcommands))
  }

  function BindingsOfAll(cs: seq<Config>): seq<Binding> {
    if cs == [] then [] else Bindings(cs[0]) + BindingsOfAll(cs[1..])
  }

  /** What a declared command offers: its handler at its name, whatever its configuration binds there, and what is below. */
  function DeclaredCommand(c: Command): seq<Binding> {
    [([c.config.name], c.handler)] + Under(c.config.name, BindingsOfAll(c.config.subcommands))
  }

  function DeclaredCommands(cs: seq<Command>): seq<Binding> {
    if cs == [] then [] else DeclaredCommand(cs[0]) + DeclaredCommands(cs[1..])
  }

  /** What a declared category offers: what its configuration has, then its subcategories, then its commands. */
  function Declared(c: Category): seq<Binding>
    decreases c, |c.subCategories| + 2
  {
    Own(c.config.name, c.config.action)
    + Under(c.config.name, BindingsOfAll(c.config.subcommands) + DeclaredCategories(c, 0) + DeclaredCommands(c.subCommands))
  }

  function DeclaredCategories(c: Category, i: nat): seq<Binding>
    requires i <= |c.subCategories|
    decreases c, |c.subCategories| - i + 1
  {
    if i == |c.subCategories| then []
    else Declared(c.subCategories[i]) + DeclaredCategories(c, i + 1)
  }

  // ----- composition -----

  function ComposedCommand(c: Command): Config {
    c.config.(action := Some(c.handler))
  }

  function Composed(c: Category): Config {
    c.config.(subcommands :=
      c.config.subcommands
      + seq(|c.subCategories|, i requires 0 <= i < |c.subCategories| => Composed(c.subCategories[i]))
      + seq(|c.subCommands|, i requires 0 <= i < |c.subCommands| => ComposedCommand(c.subCommands[i])))
  }

  /** The existing subcommands come first, then the subcategories, then the commands, each with its own handler. */
  lemma ComposedInOrder(c: Category)
    ensures
      var subs, e, n := Composed(c).subcommands, |c.config.subcommands|, |c.subCategories|;
      && Composed(c).name == c.config.name && Composed(c).action == c.config.action
      && |subs| == e + n + |c.subCommands|
      && (forall i :: 0 <= i < e ==> subs[i] == c.config.subcommands[i])
      && (forall i :: 0 <= i < n ==> subs[e + i] == Composed(c.subCategories[i]) && subs[e + i].name == c.subCategories[i].config.name)
      && (forall i :: 0 <= i < |c.subCommands| ==>
            && subs[e + n + i].name == c.subCommands[i].config.name
            && subs[e + n + i].action == Some(c.subCommands[i].handler)
            && subs[e + n + i].subcommands == c.subCommands[i].config.subcommands)
  {
  }

  class App {
    var commands: seq<Config>

    constructor ()
      ensures commands == []
    {
      commands := [];
    }

    method ComposeCommand(command: Command) returns (config: Config)
      ensures config == ComposedCommand(command) && Bindings(config) == DeclaredCommand(command)
    {
      config := command.config;
      config := config.(action := Some(command.handler));
    }

    /** The loop-based recursion; it offers exactly what was declared, in the declared order. */
    method ComposeCategory(category: Category) returns (config: Config)
      ensures config == Composed(category)
      ensures Bindings(config) == Declared(category)
      decreases category
    {
      hide Bindings, Declared;
      config := category.config;
      ghost var existing := config.subcommands;
      for i := 0 to |category.subCategories|
        invariant config == category.config.(subcommands := config.subcommands)
        invariant config.subcommands == existing + seq(i, k requires 0 <= k < i => Composed(category.subCategories[k]))
      {
        var composed := ComposeCategory(category.subCategories[i]);
        config := config.(subcommands := config.subcommands + [composed]);
      }
      ghost var before := config.subcommands;
      for i := 0 to |category.subCommands|
        invariant config == category.config.(subcommands := config.subcommands)
        invariant config.subcommands == before + seq(i, k requires 0 <= k < i => ComposedCommand(category.subCommands[k]))
      {
        var composed := ComposeCommand(category.subCommands[i]);
        config := config.(subcommands := config.subcommands + [composed]);
      }
      ComposedOffersDeclared(category);
    }

    method RegisterCategory(category: Category)
      modifies this
      ensures commands == old(commands) + [Composed(category)]
      ensures BindingsOfAll(commands) == old(BindingsOfAll(commands)) + Declared(category)
    {
      var config := ComposeCategory(category);
      AllOfAppend(commands, [config]);
      assert [config][1..] == [];
      commands := commands + [config];
    }

    method RegisterCommand(command: Command)
      modifies this
      ensures commands == old(commands) + [ComposedCommand(command)]
      ensures BindingsOfAll(commands) == old(BindingsOfAll(commands)) + DeclaredCommand(command)
    {
      var config := ComposeCommand(command);
      AllOfAppend(commands, [config]);
      assert [config][1..] == [];
      commands := commands + [config];
    }
  }

  lemma {:induction false} AllOfAppend(cs: seq<Config>, ds: seq<Config>)
    ensures BindingsOfAll(cs + ds) == BindingsOfAll(cs) + BindingsOfAll(ds)
    decreases |cs|
  {
    if cs == [] {
      assert cs + ds == ds;
    } else {
      AllOfAppend(cs[1..], ds);
      assert (cs + ds)[1..] == cs[1..] + ds;
    }
  }

  lemma {:induction false} CommandsOffer(cs: seq<Command>, configs: seq<Config>)
    requires |configs| == |cs| && forall i :: 0 <= i < |cs| ==> configs[i] == ComposedCommand(cs[i])
    ensures BindingsOfAll(configs) == DeclaredCommands(cs)
    decreases |cs|
  {
    if cs != [] {
      CommandsOffer(cs[1..], configs[1..]);
    }
  }

  lemma {:induction false} CategoriesOffer(c: Category, i: nat, configs: seq<Config>)
    requires i <= |c.subCategories| && |configs| == |c.subCategories| - i
    requires forall k :: 0 <= k < |configs| ==> configs[k] == Composed(c.subCategories[i + k])
    ensures BindingsOfAll(configs) == DeclaredCategories(c, i)
    decreases c, |c.subCategories| - i + 1
  {
    if i < |c.subCategories| {
      ComposedOffersDeclared(c.subCategories[i]);
      CategoriesOffer(c, i + 1, configs[1..]);
    }
  }

  /**
    For a category tree of any depth and width, the composed tree offers the declared paths, each
    with its own handler, in the declared order, and nothing else.
   */
  lemma {:induction false} ComposedOffersDeclared(c: Category)
    ensures Bindings(Composed(c)) == Declared(c)
    decreases c, |c.subCategories| + 2
  {
    var subs := seq(|c.subCategories|, i requires 0 <= i < |c.subCategories| => Composed(c.subCategories[i]));
    var cmds := seq(|c.subCommands|, i requires 0 <= i < |c.subCommands| => ComposedCommand(c.subCommands[i]));
    AllOfAppend(c.config.subcommands + subs, cmds);
    AllOfAppend(c.config.subcommands, subs);
    CategoriesOffer(c, 0, subs);
    CommandsOffer(c.subCommands, cmds);
  }
}

/** The builder of the design-patterns package: it accumulates a portfolio
    group position by position and sub-portfolio by sub-portfolio, and
    records an owner. */
module PortfolioBuilding {
  import opened Wrappers
  import PortfolioModels

  type Component = PortfolioModels.Component

  /** `PortfolioBuilder`: the group under construction and its owner. */
  class PortfolioBuilder {
    var group: Component
    var owner: Option<string>

    /** The group under construction is always a group. */
    predicate Valid()
      reads this
    {
      group.Group?
    }

    /** `__init__`: an empty group with the given name, no owner. */
    constructor (name: string)
      ensures Valid()
      ensures group == PortfolioModels.Group(name, []) && owner == None
    {
      group := PortfolioModels.Group(name, []);
      owner := None;
    }

    /** `add_position`: one more position at the end of the group; the
        builder itself comes back, for chaining. */
    method AddPosition(instrument: PortfolioModels.Instrument, quantity: real, price: real)
      returns (self: PortfolioBuilder)
      requires Valid()
      modifies this
      ensures Valid() && self == this && owner == old(owner)
      ensures group == PortfolioModels.Add(old(group), PortfolioModels.Position(instrument, quantity, price))
      ensures PortfolioModels.Positions(group) ==
        PortfolioModels.Positions(old(group)) + [PortfolioModels.Position(instrument, quantity, price)]
    {
      PortfolioModels.AddValue(group, PortfolioModels.Position(instrument, quantity, price));
      group := PortfolioModels.Add(group, PortfolioModels.Position(instrument, quantity, price));
      self := this;
    }

    /** `add_subportfolio`: the other builder's group goes at the end of
        this one, as it is at the time of the call; `name` is not used. */
    method AddSubportfolio(name: string, builder: PortfolioBuilder) returns (self: PortfolioBuilder)
      requires Valid()
      modifies this
      ensures Valid() && self == this && owner == old(owner)
      ensures group == PortfolioModels.Add(old(group), old(builder.group))
      ensures PortfolioModels.Positions(group) ==
        PortfolioModels.Positions(old(group)) + PortfolioModels.Positions(old(builder.group))
    {
      PortfolioModels.AddValue(group, builder.group);
      group := PortfolioModels.Add(group, builder.group);
      self := this;
    }

    /** `set_owner`: only the owner changes. */
    method SetOwner(name: string) returns (self: PortfolioBuilder)
      modifies this
      ensures self == this && owner == Some(name) && group == old(group)
    {
      owner := Some(name);
      self := this;
    }

    /** `build`: the group accumulated so far. */
    method Build() returns (g: Component)
      requires Valid()
      ensures g == group && g.Group?
    {
      g := group;
    }
  }
}

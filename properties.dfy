/** The property set of a molecular system, as far as the engine parsers write to it. */
module Properties {
  import opened Wrappers

  /** Vibrational analysis of one log: frequencies in cm^-1, normal-mode vectors, IR transitions
      (mode, intensity), IR overtone and combination bands (mode, mode, intensity) and Raman
      transitions (mode, activity, depolarisation). */
  datatype VibrationalData = VibrationalData(
    frequencies: seq<real>,
    normalModes: seq<seq<real>>,
    irTransitions: seq<(int, real)>,
    irCombinationBands: seq<(int, int, real)>,
    ramanTransitions: seq<(int, real, real)>)

  const NoVibrations := VibrationalData([], [], [], [], [])

  /** The values a property set holds; `None` for a property that has not been set. */
  datatype Properties = Properties(
    electronicEnergy: Option<real>,
    freeEnergyCorrection: Option<real>,
    storedGibbsFreeEnergy: Option<real>,
    mullikenCharges: Option<seq<real>>,
    mullikenSpins: Option<seq<real>>,
    hirshfeldCharges: Option<seq<real>>,
    hirshfeldSpins: Option<seq<real>>,
    vibrationalData: Option<VibrationalData>)

  const Unset := Properties(None, None, None, None, None, None, None, None)

  /** The Gibbs free energy the property set reports: electronic energy plus free-energy
      correction, once both are known. */
  function GibbsFreeEnergy(p: Properties): (g: Option<real>)
    ensures g.Some? <==> p.electronicEnergy.Some? && p.freeEnergyCorrection.Some?
    ensures g.Some? ==> g.value - p.freeEnergyCorrection.value == p.electronicEnergy.value
  {
    if p.electronicEnergy.Some? && p.freeEnergyCorrection.Some? then
      Some(p.electronicEnergy.value + p.freeEnergyCorrection.value)
    else None
  }

  /** The mutable property set a parser writes into through its setters. */
  class PropertySet {
    var electronicEnergy: Option<real>
    var freeEnergyCorrection: Option<real>
    var storedGibbsFreeEnergy: Option<real>
    var mullikenCharges: Option<seq<real>>
    var mullikenSpins: Option<seq<real>>
    var hirshfeldCharges: Option<seq<real>>
    var hirshfeldSpins: Option<seq<real>>
    var vibrationalData: Option<VibrationalData>

    function Value(): Properties
      reads this
    {
      Properties(electronicEnergy, freeEnergyCorrection, storedGibbsFreeEnergy, mullikenCharges,
                 mullikenSpins, hirshfeldCharges, hirshfeldSpins, vibrationalData)
    }

    constructor ()
      ensures Value() == Unset
    {
      electronicEnergy := None;
      freeEnergyCorrection := None;
      storedGibbsFreeEnergy := None;
      mullikenCharges := None;
      mullikenSpins := None;
      hirshfeldCharges := None;
      hirshfeldSpins := None;
      vibrationalData := None;
    }

    method SetElectronicEnergy(e: real)
      modifies this
      ensures Value() == old(Value()).(electronicEnergy := Some(e))
    {
      electronicEnergy := Some(e);
    }

    /** `set_free_energy_correction`, called `set_vibronic_energy` in the legacy package. */
    method SetFreeEnergyCorrection(c: real)
      modifies this
      ensures Value() == old(Value()).(freeEnergyCorrection := Some(c))
    {
      freeEnergyCorrection := Some(c);
    }

    /** `set_gibbs_free_energy` of the legacy package, which stores the value as read. */
    method SetGibbsFreeEnergy(g: real)
      modifies this
      ensures Value() == old(Value()).(storedGibbsFreeEnergy := Some(g))
    {
      storedGibbsFreeEnergy := Some(g);
    }

    method SetMulliken(charges: seq<real>, spins: seq<real>)
      modifies this
      ensures Value() == old(Value()).(mullikenCharges := Some(charges), mullikenSpins := Some(spins))
    {
      mullikenCharges := Some(charges);
      mullikenSpins := Some(spins);
    }

    method SetHirshfeld(charges: seq<real>, spins: seq<real>)
      modifies this
      ensures Value() == old(Value()).(hirshfeldCharges := Some(charges), hirshfeldSpins := Some(spins))
    {
      hirshfeldCharges := Some(charges);
      hirshfeldSpins := Some(spins);
    }

    method SetVibrationalData(v: VibrationalData)
      modifies this
      ensures Value() == old(Value()).(vibrationalData := Some(v))
    {
      vibrationalData := Some(v);
    }
  }
}

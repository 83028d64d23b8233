/** Constants of the integration that the coordinator depends on. */
module Const {

  /** Names of the daily energy accumulators. Each counts up during one
      calendar day and restarts from zero at local midnight, so a failed poll
      on the same day keeps its last value instead of zeroing it. */
  const DailySensors: set<string> := {
    "TodayGenerateEnergy",
    "PV1EnergyToday",
    "PV2EnergyToday",
    "EnergyToUserToday",
    "EnergyToGridToday",
    "DischargeEnergyToday",
    "ChargeEnergyToday"
  }
}

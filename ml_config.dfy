/**
 * The constant tables of the training configuration (ml_model/config.py).
 * Directory creation at import time is not modelled.
 */
module MlConfig {

  const SequenceLength: nat := 60
  const SignalThreshold: real := 0.001
  const TrainRatio: real := 0.7
  const ValRatio: real := 0.15
  const TestRatio: real := 0.15
  const LstmUnits: int := 16
  const GruUnits: int := 16
  const TransformerHeads: int := 2
  const TransformerLayers: int := 1
  const DropoutRate: real := 0.1
  const LearningRate: real := 0.001
  const BatchSize: nat := 32
  const Epochs: nat := 20
  const EarlyStoppingPatience: nat := 3
  const WeightDecay: real := 0.0001

  /** MODEL_CONFIG['features']: the columns fed to the networks, in order. */
  const Features: seq<string> := [
    "open", "high", "low", "close", "volume",
    "rsi_14", "ema_9", "ema_21", "ema_50",
    "macd", "macd_signal", "macd_histogram",
    "atr_14", "vwap", "price_change_pct", "volatility"
  ]

  /** USER_CONFIG: the default user profile (risk tolerance on a 1-10 scale). */
  const UserConfig: map<string, real> := map[
    "risk_tolerance" := 5.0, "investment_amount" := 10000.0, "desired_profit_pct" := 0.02,
    "max_position_size" := 0.1, "stop_loss_pct" := 0.02, "take_profit_pct" := 0.03]

  /** Directory prefixes; the absolute project root is not modelled. */
  const RawDataDir: string := "data/raw/"
  const ProcessedDataDir: string := "data/processed/"
  const ModelsDir: string := "models/"
  const ResultsDir: string := "results/"
}

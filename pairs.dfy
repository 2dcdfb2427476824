/** The dropdown of main.py:62-65 and the dictionary `pair_mapping` (main.py:71-81) that
    turns the chosen label into the exchange's pair symbol. */
module Pairs {
  import opened Optional

  /** The labels the dropdown offers, in order. */
  const Labels: seq<string> :=
    ["Bitcoin", "Ethereum", "Tether", "USD Coin", "Doge Coin", "Solana", "XRP", "Cardano", "Avalanche"]

  const PairMapping: map<string, string> := map[
    "Bitcoin" := "XXBTZUSD",
    "Ethereum" := "XETHZUSD",
    "Tether" := "USDTZUSD",
    "USD Coin" := "USDCUSD",
    "Doge Coin" := "XDGUSD",
    "Solana" := "SOLUSD",
    "XRP" := "XRPUSD",
    "Cardano" := "ADAUSD",
    "Avalanche" := "AVAXUSD"
  ]

  /** `pair_mapping.get(choice)`: a label it does not hold gives None rather than an error. */
  function LookupPair(choice: string): (r: Option<string>)
    ensures r.Some? <==> choice in PairMapping
    ensures r.Some? ==> r.value == PairMapping[choice]
  {
    if choice in PairMapping then Some(PairMapping[choice]) else None
  }

  /** The guard `if selected_pair:` of main.py:87: a pair was found and, Python's
      truthiness of strings, it is not empty. */
  predicate SelectionAccepted(choice: string): (ok: bool)
    ensures ok <==> choice in PairMapping
  {
    var pair := LookupPair(choice);
    pair.Some? && pair.value != ""
  }

  /** Every label the dropdown offers passes the guard, and only those do. */
  lemma SelectionAcceptedIffOffered(choice: string)
    ensures SelectionAccepted(choice) <==> choice in Labels
  {
    assert PairMapping.Keys == set l | l in Labels;
  }

  /** No two labels share an exchange symbol. */
  lemma MappingInjective(a: string, b: string)
    requires a in PairMapping && b in PairMapping && PairMapping[a] == PairMapping[b]
    ensures a == b
  {
  }
}

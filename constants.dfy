/** The fixed prize catalogs and the list of identities. */
module Constants {
  import opened Types

  /** The catalog used in REGULER mode; position i on the wheel holds the prize with id i. */
  function RegulerPrizes(): (ps: seq<Prize>)
    ensures |ps| == 12
    ensures forall i :: 0 <= i < |ps| ==> ps[i].id == i
  {
    [ Prize(0, "2 Btg Rokok", "#1a1a1a", "#D4AF37"),
      Prize(1, "1 Btg Rokok", "#302B63", "#FFFFFF"),
      Prize(2, "1 Saset Kopi", "#1a1a1a", "#D4AF37"),
      Prize(3, "2 Btg Rokok", "#302B63", "#FFFFFF"),
      Prize(4, "2 Saset kopi", "#1a1a1a", "#D4AF37"),
      Prize(5, "1 Btg Rokok", "#302B63", "#FFFFFF"),
      Prize(6, "1 Saset Kopi", "#1a1a1a", "#D4AF37"),
      Prize(7, "2 Saset kopi", "#302B63", "#FFFFFF"),
      Prize(8, "Snack", "#1a1a1a", "#D4AF37"),
      Prize(9, "1 Btg Rokok", "#302B63", "#FFFFFF"),
      Prize(10, "1 Saset Kopi", "#1a1a1a", "#D4AF37"),
      Prize(11, "Snack", "#302B63", "#FFFFFF") ]
  }

  /** The catalog used in EXCLUSIVE mode; position i on the wheel holds the prize with id i. */
  function ExclusivePrizes(): (ps: seq<Prize>)
    ensures |ps| == 12
    ensures forall i :: 0 <= i < |ps| ==> ps[i].id == i
  {
    [ Prize(0, "40B", "#1a1a1a", "#E0A7FF"),
      Prize(1, "60B", "#302B63", "#FFFFFF"),
      Prize(2, "100B", "#1a1a1a", "#E0A7FF"),
      Prize(3, "200B", "#302B63", "#FFFFFF"),
      Prize(4, "1 Bks Rokok", "#1a1a1a", "#E0A7FF"),
      Prize(5, "10 Saset Kopi", "#302B63", "#FFFFFF"),
      Prize(6, "2 Minuman Dgn", "#1a1a1a", "#E0A7FF"),
      Prize(7, "40B", "#302B63", "#FFFFFF"),
      Prize(8, "60B", "#1a1a1a", "#E0A7FF"),
      Prize(9, "100B", "#302B63", "#FFFFFF"),
      Prize(10, "40B", "#1a1a1a", "#E0A7FF"),
      Prize(11, "60B", "#302B63", "#FFFFFF") ]
  }

  /** Labels do not identify segments: three different segments of the EXCLUSIVE wheel read "40B". */
  lemma ExclusiveLabelsRepeat()
    ensures ExclusivePrizes()[0].text == ExclusivePrizes()[7].text == ExclusivePrizes()[10].text == "40B"
    ensures ExclusivePrizes()[0] != ExclusivePrizes()[7] && ExclusivePrizes()[7] != ExclusivePrizes()[10]
  {
  }

  /** The identities offered on the entry screen; none carries a mode yet. */
  function NamesList(): (ns: seq<UserProfile>)
    ensures |ns| == 6
    ensures forall i :: 0 <= i < |ns| ==> ns[i].name == ns[i].displayName && ns[i].selectedMode.None?
    ensures forall i, j :: 0 <= i < j < |ns| ==> ns[i].displayName != ns[j].displayName
  {
    [ UserProfile("G109", "G109", None),
      UserProfile("G71", "G71", None),
      UserProfile("G17", "G17", None),
      UserProfile("G70", "G70", None),
      UserProfile("M07", "M07", None),
      UserProfile("G31", "G31", None) ]
  }
}

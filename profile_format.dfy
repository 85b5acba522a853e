/** The player card and the stadium card: straight-line field renderings. */
module ProfileFormat {
  import opened Json
  import opened Text
  import opened Records

  /** One "label: value" line of a card. */
  function Labelled(title: string, value: string): string
  {
    title + ": " + value + "\n"
  }

  /** `format_player_card`: one squad member, with the team name and position label it is filed under. */
  function PlayerCard(p: Player, teamName: string, position: string): string
  {
    "👤 FICHE JOUEUR - CAN 2025\n\n"
    + Labelled("Nom", Render(p.name, "N/A"))
    + Labelled("Équipe", teamName)
    + Labelled("Poste", position)
    + Labelled("Club", Render(p.club, "N/A"))
  }

  /** The card shows the player's name, team, position and club, each on its own labelled line. */
  lemma PlayerCardFields(p: Player, teamName: string, position: string)
    ensures var card := PlayerCard(p, teamName, position);
      Contains(card, Labelled("Nom", Render(p.name, "N/A")))
      && Contains(card, Labelled("Équipe", teamName))
      && Contains(card, Labelled("Poste", position))
      && Contains(card, Labelled("Club", Render(p.club, "N/A")))
  {
    var head := "👤 FICHE JOUEUR - CAN 2025\n\n";
    var name := Labelled("Nom", Render(p.name, "N/A"));
    var team := Labelled("Équipe", teamName);
    var pos := Labelled("Poste", position);
    var club := Labelled("Club", Render(p.club, "N/A"));
    OccursAtEnd(head, name);
    OccursAtExtend(head + name, name, |head|, team);
    OccursAtExtend(head + name + team, name, |head|, pos);
    OccursAtExtend(head + name + team + pos, name, |head|, club);
    OccursAtEnd(head + name, team);
    OccursAtExtend(head + name + team, team, |head + name|, pos);
    OccursAtExtend(head + name + team + pos, team, |head + name|, club);
    OccursAtEnd(head + name + team, pos);
    OccursAtExtend(head + name + team + pos, pos, |head + name + team|, club);
    OccursAtEnd(head + name + team + pos, club);
  }

  /** `format_stadium_info`. */
  function StadiumInfo(s: Stadium): string
  {
    "🏟️ STADE CAN 2025\n\n"
    + Labelled("Nom", Render(s.name, "N/A"))
    + Labelled("Ville", Render(s.city, "N/A"))
    + Labelled("Capacité", Render(s.capacity, "N/A") + " spectateurs")
  }

  /** The card shows the stadium's name, city and capacity, each on its own labelled line. */
  lemma StadiumInfoFields(s: Stadium)
    ensures var card := StadiumInfo(s);
      Contains(card, Labelled("Nom", Render(s.name, "N/A")))
      && Contains(card, Labelled("Ville", Render(s.city, "N/A")))
      && Contains(card, Labelled("Capacité", Render(s.capacity, "N/A") + " spectateurs"))
  {
    var head := "🏟️ STADE CAN 2025\n\n";
    var name := Labelled("Nom", Render(s.name, "N/A"));
    var city := Labelled("Ville", Render(s.city, "N/A"));
    var cap := Labelled("Capacité", Render(s.capacity, "N/A") + " spectateurs");
    OccursAtEnd(head, name);
    OccursAtExtend(head + name, name, |head|, city);
    OccursAtExtend(head + name + city, name, |head|, cap);
    OccursAtEnd(head + name, city);
    OccursAtExtend(head + name + city, city, |head + name|, cap);
    OccursAtEnd(head + name + city, cap);
  }
}

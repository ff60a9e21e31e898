/** The product catalog: a fixed map from detector class id to display name and
    unit price. Prices are in cents (the source writes them as floats in pesos). */
module Catalog {
  datatype Product = Product(name: string, price: nat)

  /** The 34 products the detector knows, keyed by class id. */
  const ItemDb: map<int, Product> := map id | 0 <= id < 34 :: Entry(id)

  /** The catalog entry of class id `id`. */
  function Entry(id: int): Product
    requires 0 <= id < 34
  {
    if id == 0 then Product("Nescafe Coffee", 1200)
    else if id == 1 then Product("Kopiko Coffee", 1500)
    else if id == 2 then Product("Lucky Me Pancit Canton", 2500)
    else if id == 3 then Product("Coke in Can", 4500)
    else if id == 4 then Product("Alaska Milk", 5500)
    else if id == 5 then Product("Century Tuna", 4200)
    else if id == 6 then Product("VCut Spicy BBQ", 3800)
    else if id == 7 then Product("Selecta Cornetto", 3000)
    else if id == 8 then Product("Nestle Yogurt", 3500)
    else if id == 9 then Product("Femme Tissue", 2000)
    else if id == 10 then Product("Maya Champorado", 4000)
    else if id == 11 then Product("J&J Potato Chips", 3500)
    else if id == 12 then Product("Nivea Deodorant", 8900)
    else if id == 13 then Product("UFC Canned Mushroom", 3200)
    else if id == 14 then Product("Libby\'s Sausage", 5000)
    else if id == 15 then Product("Stik-O", 6500)
    else if id == 16 then Product("Nissin Cup Noodles", 2800)
    else if id == 17 then Product("Dewberry Strawberry", 7500)
    else if id == 18 then Product("Smart-C", 3500)
    else if id == 19 then Product("Pineapple Juice", 4000)
    else if id == 20 then Product("Nestle Chuckie", 3200)
    else if id == 21 then Product("Delight Probiotic", 1000)
    else if id == 22 then Product("Summit Water", 2000)
    else if id == 23 then Product("Almond Milk", 12000)
    else if id == 24 then Product("Piknik", 8500)
    else if id == 25 then Product("Bactidol", 15000)
    else if id == 26 then Product("Head & Shoulders", 1200)
    else if id == 27 then Product("Irish Spring Soap", 4500)
    else if id == 28 then Product("C2 Green Tea", 2800)
    else if id == 29 then Product("Colgate Toothpaste", 9500)
    else if id == 30 then Product("555 Sardines", 2200)
    else if id == 31 then Product("Meadows Truffle Chips", 14000)
    else if id == 32 then Product("Double Black", 6000)
    else Product("Nongshim Noodles", 5500)
  }

  /** The class id whose catalog entry carries `name`, or -1 if there is none. */
  function IdOfName(name: string): int
  {
    if |name| == 6 then
      if name == "Stik-O" then 15
      else if name == "Piknik" then 24
      else -1
    else if |name| == 7 then
      if name == "Smart-C" then 18
      else -1
    else if |name| == 8 then
      if name == "Bactidol" then 25
      else -1
    else if |name| == 11 then
      if name == "Coke in Can" then 3
      else if name == "Alaska Milk" then 4
      else if name == "Almond Milk" then 23
      else -1
    else if |name| == 12 then
      if name == "Century Tuna" then 5
      else if name == "Femme Tissue" then 9
      else if name == "Summit Water" then 22
      else if name == "C2 Green Tea" then 28
      else if name == "555 Sardines" then 30
      else if name == "Double Black" then 32
      else -1
    else if |name| == 13 then
      if name == "Kopiko Coffee" then 1
      else if name == "Nestle Yogurt" then 8
      else -1
    else if |name| == 14 then
      if name == "Nescafe Coffee" then 0
      else if name == "VCut Spicy BBQ" then 6
      else if name == "Nestle Chuckie" then 20
      else -1
    else if |name| == 15 then
      if name == "Maya Champorado" then 10
      else if name == "Nivea Deodorant" then 12
      else if name == "Libby\'s Sausage" then 14
      else if name == "Pineapple Juice" then 19
      else -1
    else if |name| == 16 then
      if name == "Selecta Cornetto" then 7
      else if name == "J&J Potato Chips" then 11
      else if name == "Head & Shoulders" then 26
      else if name == "Nongshim Noodles" then 33
      else -1
    else if |name| == 17 then
      if name == "Delight Probiotic" then 21
      else if name == "Irish Spring Soap" then 27
      else -1
    else if |name| == 18 then
      if name == "Nissin Cup Noodles" then 16
      else if name == "Colgate Toothpaste" then 29
      else -1
    else if |name| == 19 then
      if name == "UFC Canned Mushroom" then 13
      else if name == "Dewberry Strawberry" then 17
      else -1
    else if |name| == 21 then
      if name == "Meadows Truffle Chips" then 31
      else -1
    else if |name| == 22 then
      if name == "Lucky Me Pancit Canton" then 2
      else -1
    else -1
  }

  /** Every catalog product has a price: adding one always changes the cart's sum. */
  lemma PricesPositive(id: int)
    requires id in ItemDb
    ensures ItemDb[id].price > 0
  {
    assert ItemDb[id] == Entry(id);
  }

  /** Catalog names are unique: a name determines its entry. The cart merges
      lines by name, so this is what makes a cart line's price the catalog price. */
  lemma IdOfNameInverse(id: int)
    requires id in ItemDb
    ensures IdOfName(ItemDb[id].name) == id
  {
    if id < 7 {
      IdOfNameInverse0To6(id);
    } else if id < 14 {
      IdOfNameInverse7To13(id);
    } else if id < 21 {
      IdOfNameInverse14To20(id);
    } else if id < 28 {
      IdOfNameInverse21To27(id);
    } else {
      IdOfNameInverse28To33(id);
    }
  }

  /** IdOfNameInverse for the ids 0 to 6, entry by entry. */
  lemma IdOfNameInverse0To6(id: int)
    requires 0 <= id < 7
    ensures IdOfName(Entry(id).name) == id
  {
    if id == 0 {
      assert Entry(0).name == "Nescafe Coffee";
      assert IdOfName("Nescafe Coffee") == 0;
    } else if id == 1 {
      assert Entry(1).name == "Kopiko Coffee";
      assert IdOfName("Kopiko Coffee") == 1;
    } else if id == 2 {
      assert Entry(2).name == "Lucky Me Pancit Canton";
      assert IdOfName("Lucky Me Pancit Canton") == 2;
    } else if id == 3 {
      assert Entry(3).name == "Coke in Can";
      assert IdOfName("Coke in Can") == 3;
    } else if id == 4 {
      assert Entry(4).name == "Alaska Milk";
      assert IdOfName("Alaska Milk") == 4;
    } else if id == 5 {
      assert Entry(5).name == "Century Tuna";
      assert IdOfName("Century Tuna") == 5;
    } else if id == 6 {
      assert Entry(6).name == "VCut Spicy BBQ";
      assert IdOfName("VCut Spicy BBQ") == 6;
    }
  }

  /** IdOfNameInverse for the ids 7 to 13, entry by entry. */
  lemma IdOfNameInverse7To13(id: int)
    requires 7 <= id < 14
    ensures IdOfName(Entry(id).name) == id
  {
    if id == 7 {
      assert Entry(7).name == "Selecta Cornetto";
      assert IdOfName("Selecta Cornetto") == 7;
    } else if id == 8 {
      assert Entry(8).name == "Nestle Yogurt";
      assert IdOfName("Nestle Yogurt") == 8;
    } else if id == 9 {
      assert Entry(9).name == "Femme Tissue";
      assert IdOfName("Femme Tissue") == 9;
    } else if id == 10 {
      assert Entry(10).name == "Maya Champorado";
      assert IdOfName("Maya Champorado") == 10;
    } else if id == 11 {
      assert Entry(11).name == "J&J Potato Chips";
      assert IdOfName("J&J Potato Chips") == 11;
    } else if id == 12 {
      assert Entry(12).name == "Nivea Deodorant";
      assert IdOfName("Nivea Deodorant") == 12;
    } else if id == 13 {
      assert Entry(13).name == "UFC Canned Mushroom";
      assert IdOfName("UFC Canned Mushroom") == 13;
    }
  }

  /** IdOfNameInverse for the ids 14 to 20, entry by entry. */
  lemma IdOfNameInverse14To20(id: int)
    requires 14 <= id < 21
    ensures IdOfName(Entry(id).name) == id
  {
    if id == 14 {
      assert Entry(14).name == "Libby\'s Sausage";
      assert IdOfName("Libby\'s Sausage") == 14;
    } else if id == 15 {
      assert Entry(15).name == "Stik-O";
      assert IdOfName("Stik-O") == 15;
    } else if id == 16 {
      assert Entry(16).name == "Nissin Cup Noodles";
      assert IdOfName("Nissin Cup Noodles") == 16;
    } else if id == 17 {
      assert Entry(17).name == "Dewberry Strawberry";
      assert IdOfName("Dewberry Strawberry") == 17;
    } else if id == 18 {
      assert Entry(18).name == "Smart-C";
      assert IdOfName("Smart-C") == 18;
    } else if id == 19 {
      assert Entry(19).name == "Pineapple Juice";
      assert IdOfName("Pineapple Juice") == 19;
    } else if id == 20 {
      assert Entry(20).name == "Nestle Chuckie";
      assert IdOfName("Nestle Chuckie") == 20;
    }
  }

  /** IdOfNameInverse for the ids 21 to 27, entry by entry. */
  lemma IdOfNameInverse21To27(id: int)
    requires 21 <= id < 28
    ensures IdOfName(Entry(id).name) == id
  {
    if id == 21 {
      assert Entry(21).name == "Delight Probiotic";
      assert IdOfName("Delight Probiotic") == 21;
    } else if id == 22 {
      assert Entry(22).name == "Summit Water";
      assert IdOfName("Summit Water") == 22;
    } else if id == 23 {
      assert Entry(23).name == "Almond Milk";
      assert IdOfName("Almond Milk") == 23;
    } else if id == 24 {
      assert Entry(24).name == "Piknik";
      assert IdOfName("Piknik") == 24;
    } else if id == 25 {
      assert Entry(25).name == "Bactidol";
      assert IdOfName("Bactidol") == 25;
    } else if id == 26 {
      assert Entry(26).name == "Head & Shoulders";
      assert IdOfName("Head & Shoulders") == 26;
    } else if id == 27 {
      assert Entry(27).name == "Irish Spring Soap";
      assert IdOfName("Irish Spring Soap") == 27;
    }
  }

  /** IdOfNameInverse for the ids 28 to 33, entry by entry. */
  lemma IdOfNameInverse28To33(id: int)
    requires 28 <= id < 34
    ensures IdOfName(Entry(id).name) == id
  {
    if id == 28 {
      assert Entry(28).name == "C2 Green Tea";
      assert IdOfName("C2 Green Tea") == 28;
    } else if id == 29 {
      assert Entry(29).name == "Colgate Toothpaste";
      assert IdOfName("Colgate Toothpaste") == 29;
    } else if id == 30 {
      assert Entry(30).name == "555 Sardines";
      assert IdOfName("555 Sardines") == 30;
    } else if id == 31 {
      assert Entry(31).name == "Meadows Truffle Chips";
      assert IdOfName("Meadows Truffle Chips") == 31;
    } else if id == 32 {
      assert Entry(32).name == "Double Black";
      assert IdOfName("Double Black") == 32;
    } else if id == 33 {
      assert Entry(33).name == "Nongshim Noodles";
      assert IdOfName("Nongshim Noodles") == 33;
    }
  }
}
